/** AutoGroq's text helpers in AutoGroq/src/utils/helpers.py: `chunk_text`,
    which splits a text into windows of at most `chunk_size` characters
    ending at a sentence break where it can, and `format_agent_prompt`. */
module Helpers {
  import opened Base
  import opened PyJson

  // ---------------------------------------------------------------------
  // Break characters
  // ---------------------------------------------------------------------

  /** The list `['\n', '.', '\!', '?']` as written: `'\!'` is not an escape
      sequence, so that element is the two characters backslash and '!'. */
  const BreakListAsWritten: seq<string> := ["\n", ".", "\\!", "?"]

  /** `text[i] in [...]` as written. */
  predicate IsBreakAsWritten(c: char)
  {
    [c] in BreakListAsWritten
  }

  /** The break characters as evidently intended: newline, '.', '!', '?'. */
  predicate IsBreak(c: char)
  {
    c == '\n' || c == '.' || c == '!' || c == '?'
  }

  /** A one-character string never equals the two-character element, so
      '!' is never a break point as written; the other three are. */
  lemma {:induction false} BreakAsWrittenMissesExclamation(c: char)
    ensures IsBreakAsWritten(c) <==> c == '\n' || c == '.' || c == '?'
    ensures !IsBreakAsWritten('!') && IsBreak('!')
    ensures IsBreakAsWritten(c) ==> IsBreak(c)
  {
    assert |"\\!"| == 2;
    assert [c] != "\\!";
    assert BreakListAsWritten[0] == "\n" && BreakListAsWritten[1] == "." && BreakListAsWritten[3] == "?";
    if [c] in BreakListAsWritten {
      var k :| 0 <= k < 4 && BreakListAsWritten[k] == [c];
      assert k != 2;
    }
    assert ['!'] != "\\!";
  }

  // ---------------------------------------------------------------------
  // One chunk
  // ---------------------------------------------------------------------

  /** The inner for loop: from position i down to lo + 1, the first break
      character found moves the end to just after it. */
  function BreakSearch(text: string, lo: int, i: int, end: nat, brk: char -> bool): (r: nat)
    requires 0 <= lo <= i < end <= |text|
    ensures lo < r <= end
    decreases i
  {
    if i <= lo then end
    else if brk(text[i]) then i + 1
    else BreakSearch(text, lo, i - 1, end, brk)
  }

  /** The search ends one past the last break character in (lo, i], or at
      `end` when there is none. */
  lemma {:induction false} BreakSearchFinds(text: string, lo: int, i: int, end: nat, brk: char -> bool)
    requires 0 <= lo <= i < end <= |text|
    ensures var r := BreakSearch(text, lo, i, end, brk);
      || (r == end && forall j :: lo < j <= i ==> !brk(text[j]))
      || (lo < r - 1 <= i && brk(text[r - 1]) && forall j :: r - 1 < j <= i ==> !brk(text[j]))
    decreases i
  {
    if i > lo && !brk(text[i]) {
      BreakSearchFinds(text, lo, i - 1, end, brk);
    }
  }

  /** The end of the chunk starting at `start`: start + chunk_size, or the
      text's end, pulled back to one past the last break character in the
      second half of the window when the window stops short of the end. */
  function ChunkEnd(text: string, chunkSize: int, start: nat, brk: char -> bool): (r: nat)
    requires chunkSize > 0 && start < |text|
    ensures start < r <= start + chunkSize && r <= |text|
    ensures start + chunkSize >= |text| ==> r == |text|
  {
    var end := Min(start + chunkSize, |text|);
    if end < |text| then BreakSearch(text, Max(start + chunkSize / 2, start), end - 1, end, brk) else end
  }

  /** A window that stops short of the end of the text is cut one past the
      last break character after its midpoint, or kept whole when there is
      none. */
  lemma {:induction false} ChunkEndAtBreak(text: string, chunkSize: int, start: nat, brk: char -> bool)
    requires chunkSize > 0 && start + chunkSize < |text|
    ensures var r := ChunkEnd(text, chunkSize, start, brk);
      var mid := start + chunkSize / 2;
      || (r == start + chunkSize && forall j :: mid < j < start + chunkSize ==> !brk(text[j]))
      || (mid < r - 1 && brk(text[r - 1]) && forall j :: r - 1 < j < start + chunkSize ==> !brk(text[j]))
  {
    BreakSearchFinds(text, start + chunkSize / 2, start + chunkSize - 1, start + chunkSize, brk);
  }

  // ---------------------------------------------------------------------
  // chunk_text as written
  // ---------------------------------------------------------------------

  /** One iteration of the while loop as written: the chunk, and the next
      start `end - overlap`, with no exit once the end is reached. */
  function StepAsWritten(text: string, chunkSize: int, overlap: int, start: nat): (r: (string, int))
    requires chunkSize > 0 && start < |text|
  {
    var end := ChunkEnd(text, chunkSize, start, IsBreakAsWritten);
    (text[start..end], end - overlap)
  }

  /** Any window that reaches the end of the text sends the loop back to
      len(text) - overlap. */
  lemma {:induction false} StepAsWrittenAtEnd(text: string, chunkSize: int, overlap: int, start: nat)
    requires chunkSize > 0 && start < |text| && start + chunkSize >= |text|
    ensures StepAsWritten(text, chunkSize, overlap, start).1 == |text| - overlap
  {
  }

  /** With 0 < overlap <= chunk_size, the start len(text) - overlap is
      still inside the text and the loop maps it to itself: once there, the
      loop runs forever. */
  lemma {:induction false} ChunkTextAsWrittenLoops(text: string, chunkSize: int, overlap: int)
    requires 0 < overlap <= chunkSize
    requires |text| >= overlap
    ensures var s := |text| - overlap;
      && 0 <= s < |text|
      && StepAsWritten(text, chunkSize, overlap, s).1 == s
  {
    StepAsWrittenAtEnd(text, chunkSize, overlap, |text| - overlap);
  }

  /** chunk_text("abcd", 3, 1) as written: start goes 0, 2, 3, 3, ... */
  lemma {:induction false} ChunkTextAsWrittenTrace()
    ensures StepAsWritten("abcd", 3, 1, 0) == ("abc", 2)
    ensures StepAsWritten("abcd", 3, 1, 2) == ("cd", 3)
    ensures StepAsWritten("abcd", 3, 1, 3) == ("d", 3)
  {
    assert !IsBreakAsWritten('c') by {
      BreakAsWrittenMissesExclamation('c');
    }
    assert ChunkEnd("abcd", 3, 0, IsBreakAsWritten) == 3;
    assert "abcd"[0..3] == "abc";
    assert "abcd"[2..4] == "cd";
    assert "abcd"[3..4] == "d";
  }

  /** With an overlap at least chunk_size, the next start is never after
      the current one, so the loop as written stops making progress in the
      middle of the text too. */
  lemma {:induction false} ChunkTextAsWrittenStalls(text: string, chunkSize: int, overlap: int, start: nat)
    requires chunkSize > 0 && start < |text| && overlap >= chunkSize
    ensures StepAsWritten(text, chunkSize, overlap, start).1 <= start
  {
  }

  /** chunk_text("abcdef", 2, 2) as written: the first chunk is "ab" and
      the next start is 0 again. */
  lemma {:induction false} ChunkTextAsWrittenStallTrace()
    ensures StepAsWritten("abcdef", 2, 2, 0) == ("ab", 0)
  {
    assert ChunkEnd("abcdef", 2, 0, IsBreakAsWritten) == 2;
    assert "abcdef"[0..2] == "ab";
  }

  // ---------------------------------------------------------------------
  // chunk_text, stopping after the chunk that reaches the end
  // ---------------------------------------------------------------------

  /** The next start: end - overlap, or end when that would not move
      forward. */
  function NextStart(start: nat, end: nat, overlap: int): (r: nat)
    requires start < end && overlap >= 0
    ensures start < r <= end
    ensures overlap == 0 ==> r == end
  {
    if end - overlap > start then end - overlap else end
  }

  /** The spans [lo, hi) of the chunks from `start` on. */
  function Spans(text: string, chunkSize: int, overlap: int, start: nat, brk: char -> bool): (r: seq<(nat, nat)>)
    requires chunkSize > 0 && overlap >= 0 && start <= |text|
    ensures forall k :: 0 <= k < |r| ==> start <= r[k].0 < r[k].1 <= |text|
    decreases |text| - start
  {
    if start >= |text| then []
    else
      var end := ChunkEnd(text, chunkSize, start, brk);
      [(start, end)] + (if end == |text| then [] else Spans(text, chunkSize, overlap, NextStart(start, end, overlap), brk))
  }

  function Slices(text: string, spans: seq<(nat, nat)>): (r: seq<string>)
    requires forall k :: 0 <= k < |spans| ==> spans[k].0 <= spans[k].1 <= |text|
    ensures |r| == |spans|
    ensures forall k :: 0 <= k < |spans| ==> r[k] == text[spans[k].0..spans[k].1]
  {
    seq(|spans|, k requires 0 <= k < |spans| => text[spans[k].0..spans[k].1])
  }

  /** chunk_text with the loop stopping after the chunk that ends the text. */
  function Chunks(text: string, chunkSize: int, overlap: int): seq<string>
    requires chunkSize > 0 && overlap >= 0
  {
    if |text| <= chunkSize then [text] else Slices(text, Spans(text, chunkSize, overlap, 0, IsBreak))
  }

  /** The first chunk runs from `start` to ChunkEnd; the rest follow from
      NextStart unless that chunk reached the end. */
  lemma {:induction false} SpansUnfold(text: string, chunkSize: int, overlap: int, start: nat, brk: char -> bool)
    requires chunkSize > 0 && overlap >= 0 && start < |text|
    ensures var end := ChunkEnd(text, chunkSize, start, brk);
      var sp := Spans(text, chunkSize, overlap, start, brk);
      && (end == |text| ==> sp == [(start, end)])
      && (end < |text| ==> sp == [(start, end)] + Spans(text, chunkSize, overlap, NextStart(start, end, overlap), brk))
  {
  }

  /** The chunks start at `start` and the last one ends at the text's end. */
  lemma {:induction false} SpansEnds(text: string, chunkSize: int, overlap: int, start: nat, brk: char -> bool)
    requires chunkSize > 0 && overlap >= 0 && start < |text|
    ensures var sp := Spans(text, chunkSize, overlap, start, brk);
      |sp| > 0 && sp[0].0 == start && sp[|sp| - 1].1 == |text|
    decreases |text| - start
  {
    SpansUnfold(text, chunkSize, overlap, start, brk);
    var end := ChunkEnd(text, chunkSize, start, brk);
    if end < |text| {
      SpansEnds(text, chunkSize, overlap, NextStart(start, end, overlap), brk);
    }
  }

  /** Each chunk holds at most chunk_size characters. */
  lemma {:induction false} SpansBounded(text: string, chunkSize: int, overlap: int, start: nat, brk: char -> bool)
    requires chunkSize > 0 && overlap >= 0 && start <= |text|
    ensures forall k :: 0 <= k < |Spans(text, chunkSize, overlap, start, brk)| ==>
      Spans(text, chunkSize, overlap, start, brk)[k].1 - Spans(text, chunkSize, overlap, start, brk)[k].0 <= chunkSize
    decreases |text| - start
  {
    if start < |text| {
      SpansUnfold(text, chunkSize, overlap, start, brk);
      var end := ChunkEnd(text, chunkSize, start, brk);
      if end < |text| {
        SpansBounded(text, chunkSize, overlap, NextStart(start, end, overlap), brk);
      }
    }
  }

  /** Each chunk starts after the previous one's start and no later than
      its end, which is short of the text's end. */
  lemma {:induction false} SpansStep(text: string, chunkSize: int, overlap: int, start: nat, brk: char -> bool)
    requires chunkSize > 0 && overlap >= 0 && start <= |text|
    ensures var sp := Spans(text, chunkSize, overlap, start, brk);
      forall k :: 0 <= k < |sp| - 1 ==> sp[k].0 < sp[k + 1].0 <= sp[k].1 < |text|
    decreases |text| - start
  {
    if start < |text| {
      SpansUnfold(text, chunkSize, overlap, start, brk);
      var end := ChunkEnd(text, chunkSize, start, brk);
      if end < |text| {
        var next := NextStart(start, end, overlap);
        SpansStep(text, chunkSize, overlap, next, brk);
        SpansEnds(text, chunkSize, overlap, next, brk);
        var rest := Spans(text, chunkSize, overlap, next, brk);
        var sp := Spans(text, chunkSize, overlap, start, brk);
        forall k | 0 <= k < |sp| - 1
          ensures sp[k].0 < sp[k + 1].0 <= sp[k].1 < |text|
        {
          if k == 0 {
            assert sp[0] == (start, end) && sp[1] == rest[0];
          } else {
            assert sp[k] == rest[k - 1] && sp[k + 1] == rest[k];
          }
        }
      }
    }
  }

  /** With no overlap each chunk starts exactly where the previous one
      ended. */
  lemma {:induction false} SpansAdjacent(text: string, chunkSize: int, start: nat, brk: char -> bool)
    requires chunkSize > 0 && start <= |text|
    ensures var sp := Spans(text, chunkSize, 0, start, brk);
      forall k :: 0 <= k < |sp| - 1 ==> sp[k + 1].0 == sp[k].1
    decreases |text| - start
  {
    if start < |text| {
      SpansUnfold(text, chunkSize, 0, start, brk);
      var end := ChunkEnd(text, chunkSize, start, brk);
      if end < |text| {
        SpansAdjacent(text, chunkSize, end, brk);
        SpansEnds(text, chunkSize, 0, end, brk);
        var rest := Spans(text, chunkSize, 0, end, brk);
        var sp := Spans(text, chunkSize, 0, start, brk);
        forall k | 0 <= k < |sp| - 1
          ensures sp[k + 1].0 == sp[k].1
        {
          if k == 0 {
            assert sp[0] == (start, end) && sp[1] == rest[0];
          } else {
            assert sp[k] == rest[k - 1] && sp[k + 1] == rest[k];
          }
        }
      }
    }
  }

  /** Every character from `start` on lies in some chunk. */
  lemma {:induction false} SpansCover(text: string, chunkSize: int, overlap: int, start: nat, brk: char -> bool, j: nat)
    requires chunkSize > 0 && overlap >= 0 && start <= j < |text|
    ensures exists k :: (0 <= k < |Spans(text, chunkSize, overlap, start, brk)|
      && Spans(text, chunkSize, overlap, start, brk)[k].0 <= j < Spans(text, chunkSize, overlap, start, brk)[k].1)
    decreases |text| - start
  {
    SpansUnfold(text, chunkSize, overlap, start, brk);
    var sp := Spans(text, chunkSize, overlap, start, brk);
    var end := ChunkEnd(text, chunkSize, start, brk);
    if j < end {
      assert sp[0] == (start, end);
    } else {
      var next := NextStart(start, end, overlap);
      SpansCover(text, chunkSize, overlap, next, brk, j);
      var rest := Spans(text, chunkSize, overlap, next, brk);
      var k :| 0 <= k < |rest| && rest[k].0 <= j < rest[k].1;
      assert sp[k + 1] == rest[k];
    }
  }

  /** The chunk strings from `start`: the first window's text, then the
      rest. */
  lemma {:induction false} SlicesUnfold(text: string, chunkSize: int, overlap: int, start: nat, brk: char -> bool)
    requires chunkSize > 0 && overlap >= 0 && start < |text|
    ensures var end := ChunkEnd(text, chunkSize, start, brk);
      var parts := Slices(text, Spans(text, chunkSize, overlap, start, brk));
      && (end == |text| ==> parts == [text[start..end]])
      && (end < |text| ==> parts == [text[start..end]] + Slices(text, Spans(text, chunkSize, overlap, NextStart(start, end, overlap), brk)))
  {
    SpansUnfold(text, chunkSize, overlap, start, brk);
    var end := ChunkEnd(text, chunkSize, start, brk);
    var sp := Spans(text, chunkSize, overlap, start, brk);
    assert sp[0] == (start, end);
    if end == |text| {
      assert Slices(text, sp) == [text[start..end]];
    } else {
      var rest := Spans(text, chunkSize, overlap, NextStart(start, end, overlap), brk);
      SlicesCons(text, (start, end), rest);
    }
  }

  /** The chunk strings of one more span in front. */
  lemma {:induction false} SlicesCons(text: string, h: (nat, nat), t: seq<(nat, nat)>)
    requires h.0 <= h.1 <= |text| && forall k :: 0 <= k < |t| ==> t[k].0 <= t[k].1 <= |text|
    ensures Slices(text, [h] + t) == [text[h.0..h.1]] + Slices(text, t)
  {
    var a := Slices(text, [h] + t);
    var b := [text[h.0..h.1]] + Slices(text, t);
    assert |a| == |b|;
    forall k | 0 <= k < |a|
      ensures a[k] == b[k]
    {
      if k > 0 {
        assert ([h] + t)[k] == t[k - 1];
      }
    }
  }

  /** With no overlap the chunks put back together are the text. */
  lemma {:induction false} SpansConcat(text: string, chunkSize: int, start: nat, brk: char -> bool)
    requires chunkSize > 0 && start <= |text|
    ensures Concat(Slices(text, Spans(text, chunkSize, 0, start, brk))) == text[start..]
    decreases |text| - start
  {
    if start < |text| {
      SlicesUnfold(text, chunkSize, 0, start, brk);
      var end := ChunkEnd(text, chunkSize, start, brk);
      var parts := Slices(text, Spans(text, chunkSize, 0, start, brk));
      if end == |text| {
        assert text[start..end] == text[start..];
      } else {
        SpansConcat(text, chunkSize, end, brk);
        assert parts[1..] == Slices(text, Spans(text, chunkSize, 0, end, brk));
        assert text[start..] == text[start..end] + text[end..];
      }
    }
  }

  /** chunk_text returns [text] for a short text; otherwise its chunks are
      non-empty and at most chunk_size long. */
  lemma {:induction false} ChunksSized(text: string, chunkSize: int, overlap: int)
    requires chunkSize > 0 && overlap >= 0
    ensures |text| <= chunkSize ==> Chunks(text, chunkSize, overlap) == [text]
    ensures forall k :: 0 <= k < |Chunks(text, chunkSize, overlap)| ==> |Chunks(text, chunkSize, overlap)[k]| <= chunkSize
    ensures |text| > chunkSize ==> forall k :: 0 <= k < |Chunks(text, chunkSize, overlap)| ==> |Chunks(text, chunkSize, overlap)[k]| > 0
  {
    if |text| > chunkSize {
      var sp := Spans(text, chunkSize, overlap, 0, IsBreak);
      SpansBounded(text, chunkSize, overlap, 0, IsBreak);
      forall k | 0 <= k < |sp|
        ensures 0 < |Chunks(text, chunkSize, overlap)[k]| <= chunkSize
      {
        assert Chunks(text, chunkSize, overlap) == Slices(text, sp);
        assert Chunks(text, chunkSize, overlap)[k] == text[sp[k].0..sp[k].1];
        assert sp[k].0 < sp[k].1;
        assert sp[k].1 - sp[k].0 <= chunkSize;
      }
    }
  }

  /** With no overlap chunk_text's pieces concatenate back to the text. */
  lemma {:induction false} ChunksConcat(text: string, chunkSize: int)
    requires chunkSize > 0
    ensures Concat(Chunks(text, chunkSize, 0)) == text
  {
    if |text| > chunkSize {
      SpansConcat(text, chunkSize, 0, IsBreak);
      assert text[0..] == text;
    }
  }

  /** With no overlap the corrected loop takes exactly the steps of the
      loop as written, which then also stops at the text's end. */
  lemma {:induction false} NoOverlapAsWritten(text: string, chunkSize: int, start: nat)
    requires chunkSize > 0 && start < |text|
    ensures var sp := Spans(text, chunkSize, 0, start, IsBreakAsWritten);
      && (forall k :: 0 <= k < |sp| - 1 ==> sp[k + 1].0 == StepAsWritten(text, chunkSize, 0, sp[k].0).1)
      && StepAsWritten(text, chunkSize, 0, sp[|sp| - 1].0).1 == |text|
    decreases |text| - start
  {
    SpansUnfold(text, chunkSize, 0, start, IsBreakAsWritten);
    var end := ChunkEnd(text, chunkSize, start, IsBreakAsWritten);
    if end < |text| {
      NoOverlapAsWritten(text, chunkSize, end);
      var sp := Spans(text, chunkSize, 0, start, IsBreakAsWritten);
      var rest := Spans(text, chunkSize, 0, end, IsBreakAsWritten);
      assert forall k :: 0 < k < |sp| ==> sp[k] == rest[k - 1];
    }
  }

  /** The end of one chunk: the window, searched backwards for a break
      character when it stops short of the text's end. */
  method WindowEnd(text: string, chunkSize: int, start: nat) returns (end: nat)
    requires chunkSize > 0 && start < |text|
    ensures end == ChunkEnd(text, chunkSize, start, IsBreak)
  {
    end := Min(start + chunkSize, |text|);
    if end < |text| {
      var lo := Max(start + chunkSize / 2, start);
      var i := end - 1;
      var found := end;
      while i > lo
        invariant lo <= i < end
        invariant found == end
        invariant BreakSearch(text, lo, end - 1, end, IsBreak) == BreakSearch(text, lo, i, end, IsBreak)
        decreases i
      {
        if IsBreak(text[i]) {
          found := i + 1;
          break;
        }
        i := i - 1;
      }
      end := found;
    }
  }

  /** chunk_text, with the loop stopping after the chunk that reaches the
      end and always moving forward. */
  method ChunkText(text: string, chunkSize: int, overlap: int) returns (chunks: seq<string>)
    requires chunkSize > 0 && overlap >= 0
    ensures chunks == Chunks(text, chunkSize, overlap)
  {
    if |text| <= chunkSize {
      return [text];
    }
    chunks := [];
    var start: nat := 0;
    while start < |text|
      invariant start <= |text|
      invariant Slices(text, Spans(text, chunkSize, overlap, 0, IsBreak))
             == chunks + Slices(text, Spans(text, chunkSize, overlap, start, IsBreak))
      decreases |text| - start
    {
      var end := WindowEnd(text, chunkSize, start);
      SlicesUnfold(text, chunkSize, overlap, start, IsBreak);
      chunks := chunks + [text[start..end]];
      if end == |text| {
        break;
      }
      start := NextStart(start, end, overlap);
    }
  }

  // ---------------------------------------------------------------------
  // format_agent_prompt
  // ---------------------------------------------------------------------

  const KeySystem := "system"
  const KeyUser := "user"
  const KeyToolName := "name"
  const KeyToolDescription := "description"

  /** The prompt dictionary: "system", "user" and, when tools were given,
      "tools". */
  datatype Prompt = Prompt(system: string, user: string, tools: Option<seq<Dict>>)

  /** What an f-string shows for a value (`str(value)`). */
  type Show = Json -> string

  /** `f"- {key}: {value}\n"`. */
  function EntryLine(key: string, value: string): string
  {
    "- " + key + ": " + value + "\n"
  }

  /** The context lines, one per entry in the dictionary's order. */
  function ContextLines(context: seq<(string, Json)>, show: Show): string
  {
    if context == [] then ""
    else
      var last := context[|context| - 1];
      ContextLines(context[..|context| - 1], show) + EntryLine(last.0, show(last.1))
  }

  /** The line for one tool, or the KeyError of its missing 'name' (looked
      up first) or 'description'. */
  function ToolLine(tool: Dict, show: Show): (r: Result<string, string>)
    ensures r.Err? <==> KeyToolName !in tool || KeyToolDescription !in tool
    ensures KeyToolName !in tool ==> r == Err(KeyError(KeyToolName))
    ensures KeyToolName in tool && KeyToolDescription !in tool ==> r == Err(KeyError(KeyToolDescription))
  {
    if KeyToolName !in tool then Err(KeyError(KeyToolName))
    else if KeyToolDescription !in tool then Err(KeyError(KeyToolDescription))
    else Ok(EntryLine(show(tool[KeyToolName]), show(tool[KeyToolDescription])))
  }

  /** The tool lines in order, or the error of the first tool that lacks a
      key. */
  function ToolLines(tools: seq<Dict>, show: Show): Result<string, string>
  {
    if tools == [] then Ok("")
    else
      var prefix := ToolLines(tools[..|tools| - 1], show);
      if prefix.Err? then prefix
      else
        var line := ToolLine(tools[|tools| - 1], show);
        if line.Err? then Err(line.error) else Ok(prefix.value + line.value)
  }

  /** A tool lacks 'name' or 'description'. */
  predicate ToolIncomplete(tool: Dict)
  {
    KeyToolName !in tool || KeyToolDescription !in tool
  }

  /** format_agent_prompt, with a None context or tools list given as the
      empty one (both are falsy). */
  function PromptOf(systemPrompt: string, userPrompt: string, context: seq<(string, Json)>,
                    tools: seq<Dict>, show: Show): Result<Prompt, string>
  {
    var system := systemPrompt + (if context == [] then "" else "\nContext:\n" + ContextLines(context, show));
    if tools == [] then Ok(Prompt(system, userPrompt, None))
    else
      var lines := ToolLines(tools, show);
      if lines.Err? then Err(lines.error)
      else Ok(Prompt(system + "\nTools available:\n" + lines.value, userPrompt, Some(tools)))
  }

  /** format_agent_prompt's two loops, each appending one line per entry. */
  method FormatAgentPrompt(systemPrompt: string, userPrompt: string, context: seq<(string, Json)>,
                           tools: seq<Dict>, show: Show) returns (r: Result<Prompt, string>)
    ensures r == PromptOf(systemPrompt, userPrompt, context, tools, show)
  {
    var system := systemPrompt;
    if context != [] {
      var contextStr := "\nContext:\n";
      for k := 0 to |context|
        invariant contextStr == "\nContext:\n" + ContextLines(context[..k], show)
      {
        assert context[..k + 1][..k] == context[..k];
        contextStr := contextStr + EntryLine(context[k].0, show(context[k].1));
      }
      assert context[..|context|] == context;
      system := system + contextStr;
    } else {
      assert system == systemPrompt + "";
    }
    if tools == [] {
      return Ok(Prompt(system, userPrompt, None));
    }
    var toolStr := "\nTools available:\n";
    for k := 0 to |tools|
      invariant ToolLines(tools[..k], show).Ok?
      invariant toolStr == "\nTools available:\n" + ToolLines(tools[..k], show).value
    {
      assert tools[..k + 1][..k] == tools[..k];
      var tool := tools[k];
      if KeyToolName !in tool {
        ToolLinesErrLasts(tools, k + 1, show);
        return Err(KeyError(KeyToolName));
      }
      if KeyToolDescription !in tool {
        ToolLinesErrLasts(tools, k + 1, show);
        return Err(KeyError(KeyToolDescription));
      }
      toolStr := toolStr + EntryLine(show(tool[KeyToolName]), show(tool[KeyToolDescription]));
    }
    assert tools[..|tools|] == tools;
    assert system + toolStr == system + "\nTools available:\n" + ToolLines(tools, show).value;
    r := Ok(Prompt(system + toolStr, userPrompt, Some(tools)));
  }

  /** Once a prefix of the tools fails, the whole list fails the same way. */
  lemma {:induction false} ToolLinesErrLasts(tools: seq<Dict>, j: nat, show: Show)
    requires j <= |tools| && ToolLines(tools[..j], show).Err?
    ensures ToolLines(tools, show) == ToolLines(tools[..j], show)
    decreases |tools| - j
  {
    if j < |tools| {
      assert tools[..j + 1][..j] == tools[..j];
      ToolLinesErrLasts(tools, j + 1, show);
    } else {
      assert tools[..j] == tools;
    }
  }

  /** The tool lines fail exactly when some tool lacks a key, with the
      error of the first such tool. */
  lemma {:induction false} ToolLinesError(tools: seq<Dict>, show: Show)
    ensures ToolLines(tools, show).Err? <==> exists i :: 0 <= i < |tools| && ToolIncomplete(tools[i])
    ensures ToolLines(tools, show).Err? ==>
      exists i :: 0 <= i < |tools| && ToolIncomplete(tools[i])
        && (forall j :: 0 <= j < i ==> !ToolIncomplete(tools[j]))
        && ToolLines(tools, show) == ToolLine(tools[i], show)
  {
    if tools != [] {
      var init := tools[..|tools| - 1];
      ToolLinesError(init, show);
      if ToolLines(init, show).Err? {
        var i :| 0 <= i < |init| && ToolIncomplete(init[i])
          && (forall j :: 0 <= j < i ==> !ToolIncomplete(init[j]))
          && ToolLines(init, show) == ToolLine(init[i], show);
        assert tools[i] == init[i];
        assert forall j :: 0 <= j < i ==> tools[j] == init[j];
      } else {
        assert forall j :: 0 <= j < |init| ==> tools[j] == init[j];
        if ToolIncomplete(tools[|tools| - 1]) {
          assert forall j :: 0 <= j < |tools| - 1 ==> !ToolIncomplete(tools[j]);
        }
      }
    }
  }

  /** The number of occurrences of c in s. */
  function CountChar(s: string, c: char): nat
  {
    if s == [] then 0 else CountChar(s[..|s| - 1], c) + (if s[|s| - 1] == c then 1 else 0)
  }

  lemma {:induction false} CountCharAppend(a: string, b: string, c: char)
    ensures CountChar(a + b, c) == CountChar(a, c) + CountChar(b, c)
    decreases |b|
  {
    if b == [] {
      assert a + b == a;
    } else {
      assert (a + b)[..|a + b| - 1] == a + b[..|b| - 1];
      CountCharAppend(a, b[..|b| - 1], c);
    }
  }

  /** A line for texts free of newlines holds exactly one newline. */
  lemma {:induction false} EntryLineOneNewline(key: string, value: string)
    requires '\n' !in key && '\n' !in value
    ensures CountChar(EntryLine(key, value), '\n') == 1
  {
    NoNewline(key);
    NoNewline(value);
    assert CountChar("- ", '\n') == 0;
    assert CountChar(": ", '\n') == 0;
    assert CountChar("\n", '\n') == 1;
    CountCharAppend("- ", key, '\n');
    CountCharAppend("- " + key, ": ", '\n');
    CountCharAppend("- " + key + ": ", value, '\n');
    CountCharAppend("- " + key + ": " + value, "\n", '\n');
  }

  lemma {:induction false} NoNewline(s: string)
    requires '\n' !in s
    ensures CountChar(s, '\n') == 0
  {
    if s != [] {
      assert s[..|s| - 1][..] == s[..|s| - 1];
      assert '\n' !in s[..|s| - 1];
      NoNewline(s[..|s| - 1]);
    }
  }

  /** One line per context entry: with keys and shown values free of
      newlines, the context block holds one newline per entry. */
  lemma {:induction false} ContextOneLineEach(context: seq<(string, Json)>, show: Show)
    requires forall i :: 0 <= i < |context| ==> '\n' !in context[i].0 && '\n' !in show(context[i].1)
    ensures CountChar(ContextLines(context, show), '\n') == |context|
  {
    if context != [] {
      var init := context[..|context| - 1];
      var last := context[|context| - 1];
      assert forall i :: 0 <= i < |init| ==> init[i] == context[i];
      ContextOneLineEach(init, show);
      EntryLineOneNewline(last.0, show(last.1));
      CountCharAppend(ContextLines(init, show), EntryLine(last.0, show(last.1)), '\n');
    }
  }

  /** One line per tool: with names and descriptions shown free of
      newlines, the tool block holds one newline per tool. */
  lemma {:induction false} ToolsOneLineEach(tools: seq<Dict>, show: Show)
    requires forall i :: 0 <= i < |tools| ==>
      && KeyToolName in tools[i] && KeyToolDescription in tools[i]
      && '\n' !in show(tools[i][KeyToolName]) && '\n' !in show(tools[i][KeyToolDescription])
    ensures ToolLines(tools, show).Ok?
    ensures CountChar(ToolLines(tools, show).value, '\n') == |tools|
  {
    if tools != [] {
      var init := tools[..|tools| - 1];
      var last := tools[|tools| - 1];
      assert forall i :: 0 <= i < |init| ==> init[i] == tools[i];
      ToolsOneLineEach(init, show);
      EntryLineOneNewline(show(last[KeyToolName]), show(last[KeyToolDescription]));
      CountCharAppend(ToolLines(init, show).value, ToolLine(last, show).value, '\n');
    }
  }

  /** The prompt keeps the user prompt, extends the system prompt, and
      carries "tools" exactly when a non-empty tools list was given. */
  lemma {:induction false} PromptShape(systemPrompt: string, userPrompt: string, context: seq<(string, Json)>,
                    tools: seq<Dict>, show: Show)
    ensures var r := PromptOf(systemPrompt, userPrompt, context, tools, show);
      r.Ok? ==> && r.value.user == userPrompt
                && StartsWith(r.value.system, systemPrompt)
                && (r.value.tools.Some? <==> tools != [])
                && (r.value.tools.Some? ==> r.value.tools.value == tools)
    ensures context == [] && tools == [] ==>
      PromptOf(systemPrompt, userPrompt, context, tools, show) == Ok(Prompt(systemPrompt, userPrompt, None))
  {
    assert systemPrompt + "" == systemPrompt;
  }
}
