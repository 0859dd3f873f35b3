/** The recursive prompt chain of SolnAI
    (SolnAI-agents/shared/examples/prompt_chains/recursive_chain.py):
    `solve` records each accepted call in the chain's call history, asks the
    model, reads the SUB-PROBLEM, NEED-SOLUTION and SOLUTION markers from the
    reply and, when a sub-problem must be solved first, solves it one level
    deeper before asking again. The chat model is a parameter. */
module RecursiveChain {
  import opened Base
  import ChainUtils

  // ---------------------------------------------------------------------
  // The extractors
  // ---------------------------------------------------------------------

  const SubProblemMarker := "SUB-PROBLEM:"
  const NeedSolutionMarker := "NEED-SOLUTION:"
  const SolutionMarker := "SOLUTION:"

  /** What `_extract_sub_problems` takes from one line: the stripped rest
      of a line whose stripped form starts with the marker. */
  function SubProblemOf(line: string): Option<string>
  {
    var t := Strip(line);
    if StartsWith(t, SubProblemMarker) then Some(Strip(t[|SubProblemMarker|..])) else None
  }

  function SubMatches(lines: seq<string>): (ms: seq<Option<string>>)
    ensures |ms| == |lines| && forall i :: 0 <= i < |lines| ==> ms[i] == SubProblemOf(lines[i])
  {
    seq(|lines|, i requires 0 <= i < |lines| => SubProblemOf(lines[i]))
  }

  /** The sub-problems of the lines, in line order. */
  function SubProblems(lines: seq<string>): seq<string>
  {
    ChainUtils.Somes(SubMatches(lines))
  }

  /** `_extract_sub_problems(text)`. */
  method ExtractSubProblems(text: string) returns (subs: seq<string>)
    ensures subs == SubProblems(SplitOn(text, '\n'))
  {
    var lines := SplitOn(text, '\n');
    ghost var ms := SubMatches(lines);
    subs := [];
    for k := 0 to |lines|
      invariant subs == ChainUtils.Somes(ms[..k])
    {
      assert ms[..k + 1][..k] == ms[..k];
      var t := Strip(lines[k]);
      if StartsWith(t, SubProblemMarker) {
        subs := subs + [Strip(t[|SubProblemMarker|..])];
      }
    }
    assert ms[..|lines|] == ms;
  }

  /** The sub-problems of two runs of lines are those of each, in order. */
  lemma {:induction false} SubProblemsAppend(a: seq<string>, b: seq<string>)
    ensures SubProblems(a + b) == SubProblems(a) + SubProblems(b)
  {
    var ma, mb, mab := SubMatches(a), SubMatches(b), SubMatches(a + b);
    forall i | 0 <= i < |mab|
      ensures mab[i] == (ma + mb)[i]
    {
      if i < |a| {
        assert (a + b)[i] == a[i];
      } else {
        assert (a + b)[i] == b[i - |a|];
      }
    }
    assert mab == ma + mb;
    ChainUtils.SomesAppend(ma, mb);
  }

  /** The line the prompt asks for, for one sub-problem. */
  function SubProblemLine(p: string): string
  {
    SubProblemMarker + " " + p
  }

  lemma {:induction false} StripSpaced(p: string)
    requires ChainUtils.CleanItem(p)
    ensures Strip(" " + p) == p
  {
    var s := " " + p;
    assert s[1..] == p;
    assert LeadingSpace(s) == 1;
    StripOfStripped(p);
  }

  lemma {:induction false} SubProblemLineItem(p: string)
    requires ChainUtils.CleanItem(p)
    ensures SubProblemOf(SubProblemLine(p)) == Some(p)
  {
    var line := SubProblemLine(p);
    assert line[0] == 'S' && line[|line| - 1] == p[|p| - 1];
    StripOfStripped(line);
    assert line[..|SubProblemMarker|] == SubProblemMarker;
    assert line[|SubProblemMarker|..] == " " + p;
    StripSpaced(p);
  }

  /** Sub-problems written one per line as the prompt asks are read back,
      in order. */
  lemma {:induction false} SubProblemsRoundTrip(ps: seq<string>)
    requires forall k :: 0 <= k < |ps| ==> ChainUtils.CleanItem(ps[k])
    ensures SubProblems(MapSeq(SubProblemLine, ps)) == ps
  {
    var ms := SubMatches(MapSeq(SubProblemLine, ps));
    forall i | 0 <= i < |ps|
      ensures ms[i] == Some(ps[i])
    {
      SubProblemLineItem(ps[i]);
    }
    ChainUtils.SomesOfAll(ps, ms);
  }

  /** The text up to the first newline. */
  function UpToNewline(s: string): (r: string)
    ensures '\n' !in r
    ensures '\n' in s ==> |r| < |s| && s[|r|] == '\n' && r == s[..|r|]
    ensures '\n' !in s ==> r == s
  {
    if '\n' in s then s[..IndexOf(s, '\n')] else s
  }

  /** `re.search(marker + r"(.*?)(?:\n\n|\n|$)", text, re.DOTALL)` with the
      group stripped: the lazy group stops at the first newline after the
      first occurrence of the marker, or at the end. */
  function AfterMarker(text: string, marker: string): (r: Option<string>)
    ensures r.None? <==> Find(text, marker).None?
  {
    match Find(text, marker)
    case None => None
    case Some(i) => Some(Strip(UpToNewline(text[i + |marker|..])))
  }

  /** `_extract_need_solution(text)`. */
  function NeedSolution(text: string): Option<string>
  {
    AfterMarker(text, NeedSolutionMarker)
  }

  /** `_extract_solution(text)`: the whole text when there is no marker. */
  function ExtractSolution(text: string): (r: string)
    ensures Find(text, SolutionMarker).None? ==> r == text
  {
    match AfterMarker(text, SolutionMarker)
    case None => text
    case Some(s) => s
  }

  /** "SOLUTION:" also occurs inside "NEED-SOLUTION:", so a reply always
      has a solution marker no later than its first need marker, and when
      no other one comes first, the solution read is the need text. */
  lemma {:induction false} SolutionInsideNeed(text: string, i: nat)
    requires Find(text, NeedSolutionMarker) == Some(i)
    ensures Find(text, SolutionMarker).Some? && Find(text, SolutionMarker).value <= i + 5
    ensures Find(text, SolutionMarker) == Some(i + 5) ==> ExtractSolution(text) == NeedSolution(text).value
  {
    assert text[i..i + |NeedSolutionMarker|] == NeedSolutionMarker;
    assert text[i + 5..i + 5 + |SolutionMarker|] == text[i..i + |NeedSolutionMarker|][5..];
    assert OccursAt(text, SolutionMarker, i + 5);
    assert i + 5 + |SolutionMarker| == i + |NeedSolutionMarker|;
  }

  // ---------------------------------------------------------------------
  // solve
  // ---------------------------------------------------------------------

  /** `generate_chat_completion` on the system and user messages, the
      temperature and the token limit: the reply, or the error raised. */
  type Llm = (string, Prompt, real, int) -> Result<string, string>

  /** The user message of a call: the first one, asking to break the problem
      down, or the one passing back a sub-problem's solution. Its text is
      Render; the model hands the LLM the message itself, which determines
      that text. */
  datatype Prompt =
    | Decompose(problem: string)
    | WithSubSolution(problem: string, need: string, subSolution: string)

  /** A call record. `needSolution` and `initialSolution` are absent until
      the first reply is read; `needSolution` may then hold None. */
  datatype CallRecord = CallRecord(
    id: int,
    depth: int,
    problem: string,
    subProblems: seq<string>,
    needSolution: Option<Option<string>>,
    initialSolution: Option<string>,
    solution: Option<string>)

  /** What `solve` returns: the depth error, or the solution with the
      sub-problems listed in the first reply. */
  datatype Outcome = DepthExceeded | Solved(solution: string, subProblems: seq<string>)

  const DepthExceededMessage := "Maximum recursion depth exceeded. Unable to solve the problem."

  /** `sub_result['solution']`. */
  function SolutionText(o: Outcome): string
  {
    if o.DepthExceeded? then DepthExceededMessage else o.solution
  }

  /** The chain's settings, fixed at construction. */
  datatype Settings = Settings(systemPrompt: string, maxDepth: int, temperature: real, maxTokens: int)

  /** The exact text of each user message. */
  function Render(p: Prompt): string
  {
    match p
    case Decompose(problem) =>
      "\nProblem: " + problem + "\n\nIf this problem is complex, break it down into smaller sub-problems. "
      + "For each sub-problem, write \"SUB-PROBLEM:\" followed by the sub-problem description.\n\n"
      + "After listing any sub-problems (or if none are needed), provide your solution to the original problem, "
      + "starting with \"SOLUTION:\".\n\nIf you need to solve a sub-problem before solving the main problem, "
      + "write \"NEED-SOLUTION:\" followed by the specific sub-problem that needs to be solved first.\n"
    case WithSubSolution(problem, need, subSolution) =>
      "\nProblem: " + problem + "\n\nI've solved a sub-problem for you:\nSUB-PROBLEM: " + need
      + "\nSUB-SOLUTION: " + subSolution
      + "\n\nNow, using this information, please solve the original problem. Start your solution with \"SOLUTION:\".\n"
  }

  /** A history whose records are numbered 1, 2, ... in order. */
  predicate Numbered(history: seq<CallRecord>)
  {
    forall i :: 0 <= i < |history| ==> history[i].id == i + 1
  }

  function Rank(s: Settings, depth: int): nat
  {
    if depth <= s.maxDepth then s.maxDepth - depth + 1 else 0
  }

  /** The history with a fresh record for an accepted call. */
  function Opened(history: seq<CallRecord>, problem: string, depth: int): (h: seq<CallRecord>)
    ensures |h| == |history| + 1 && h[..|history|] == history
    ensures h[|history|] == CallRecord(|history| + 1, depth, problem, [], None, None, None)
  {
    history + [CallRecord(|history| + 1, depth, problem, [], None, None, None)]
  }

  /** Record idx with what the first reply said. */
  function WithReply(h: seq<CallRecord>, idx: nat, subs: seq<string>, need: Option<string>, first: string): (r: seq<CallRecord>)
    requires idx < |h|
    ensures |r| == |h| && forall i :: 0 <= i < |h| && i != idx ==> r[i] == h[i]
    ensures r[..idx] == h[..idx]
    ensures r[idx] == h[idx].(subProblems := subs, needSolution := Some(need), initialSolution := Some(first))
  {
    h[idx := h[idx].(subProblems := subs, needSolution := Some(need), initialSolution := Some(first))]
  }

  /** Record idx with its final solution. */
  function WithSolution(h: seq<CallRecord>, idx: nat, solution: string): (r: seq<CallRecord>)
    requires idx < |h|
    ensures |r| == |h| && forall i :: 0 <= i < |h| && i != idx ==> r[i] == h[i]
    ensures r[..idx] == h[..idx]
    ensures r[idx] == h[idx].(solution := Some(solution))
  {
    h[idx := h[idx].(solution := Some(solution))]
  }

  /** `solve(problem, depth)` on the call history: the new history and the
      result or the error raised. The history only grows, and a call beyond
      the depth limit is refused before it records anything. */
  function SolveCall(s: Settings, llm: Llm, history: seq<CallRecord>, problem: string, depth: int)
    : (r: (seq<CallRecord>, Result<Outcome, string>))
    ensures |history| <= |r.0| && r.0[..|history|] == history
    ensures depth > s.maxDepth <==> r == (history, Ok(DepthExceeded))
    decreases Rank(s, depth), 1
  {
    if depth > s.maxDepth then (history, Ok(DepthExceeded))
    else
      var h := Opened(history, problem, depth);
      var r := FirstReply(s, llm, h, |history|, problem, depth, llm(s.systemPrompt, Decompose(problem), s.temperature, s.maxTokens));
      assert r.0[..|history|] == r.0[..|h|][..|history|];
      r
  }

  /** The rest of an accepted call once the first reply is in, record idx
      being the call's own. */
  function FirstReply(s: Settings, llm: Llm, h: seq<CallRecord>, idx: nat, problem: string, depth: int,
                      reply: Result<string, string>): (r: (seq<CallRecord>, Result<Outcome, string>))
    requires idx < |h| && depth <= s.maxDepth
    ensures |h| <= |r.0| && r.0[..idx] == h[..idx]
    decreases Rank(s, depth), 0
  {
    match reply
    case Err(e) => (h, Err(e))
    case Ok(text) =>
      var subs := SubProblems(SplitOn(text, '\n'));
      var need := NeedSolution(text);
      var first := ExtractSolution(text);
      var h2 := WithReply(h, idx, subs, need, first);
      if need.Some? && need.value != "" then
        var sub := SolveCall(s, llm, h2, need.value, depth + 1);
        assert sub.0[..idx] == sub.0[..|h2|][..idx];
        SubReply(s, llm, idx, problem, need.value, subs, sub)
      else
        var h3 := WithSolution(h2, idx, first);
        (h3, Ok(Solved(first, subs)))
  }

  /** The end of a call that asked for a sub-problem's solution first:
      `sub` is the sub-call's history and result. */
  function SubReply(s: Settings, llm: Llm, idx: nat, problem: string, need: string, subs: seq<string>,
                    sub: (seq<CallRecord>, Result<Outcome, string>)): (r: (seq<CallRecord>, Result<Outcome, string>))
    requires idx < |sub.0|
    ensures |r.0| == |sub.0| && forall i :: 0 <= i < |sub.0| && i != idx ==> r.0[i] == sub.0[i]
    ensures r.0[..idx] == sub.0[..idx]
    ensures r.0[idx].id == sub.0[idx].id && r.0[idx].depth == sub.0[idx].depth && r.0[idx].problem == sub.0[idx].problem
  {
    if sub.1.Err? then (sub.0, Err(sub.1.error))
    else
      match llm(s.systemPrompt, WithSubSolution(problem, need, SolutionText(sub.1.value)), s.temperature, s.maxTokens)
      case Err(e) => (sub.0, Err(e))
      case Ok(text) =>
        var solution := ExtractSolution(text);
        (WithSolution(sub.0, idx, solution), Ok(Solved(solution, subs)))
  }

  /** The records that a call and its deeper calls add all lie within the
      depth limit, so nesting is bounded by maxDepth + 1; and a numbered
      history stays numbered. */
  ghost predicate Grown(before: seq<CallRecord>, after: seq<CallRecord>, depth: int, maxDepth: int)
  {
    && |before| <= |after|
    && (forall i :: |before| <= i < |after| ==> depth <= after[i].depth <= maxDepth)
    && (Numbered(before) ==> Numbered(after))
  }

  /** An accepted call appends its own record first, numbered one past the
      history, with its depth and problem; and the history grows as Grown
      says. */
  lemma {:induction false} SolveCallRecords(s: Settings, llm: Llm, history: seq<CallRecord>, problem: string, depth: int)
    ensures var r := SolveCall(s, llm, history, problem, depth);
      && (depth <= s.maxDepth ==>
            && |r.0| > |history|
            && r.0[|history|].id == |history| + 1 && r.0[|history|].depth == depth && r.0[|history|].problem == problem)
      && Grown(history, r.0, depth, s.maxDepth)
    decreases Rank(s, depth), 1
  {
    if depth <= s.maxDepth {
      var h := Opened(history, problem, depth);
      var reply := llm(s.systemPrompt, Decompose(problem), s.temperature, s.maxTokens);
      FirstReplyRecords(s, llm, h, |history|, problem, depth, reply);
    }
  }

  lemma {:induction false} FirstReplyRecords(s: Settings, llm: Llm, h: seq<CallRecord>, idx: nat, problem: string, depth: int,
                                             reply: Result<string, string>)
    requires idx + 1 == |h| && depth <= s.maxDepth
    requires h[idx].depth == depth
    ensures var r := FirstReply(s, llm, h, idx, problem, depth, reply);
      && r.0[idx].id == h[idx].id && r.0[idx].depth == depth && r.0[idx].problem == h[idx].problem
      && (forall i :: idx <= i < |r.0| ==> depth <= r.0[i].depth <= s.maxDepth)
      && (Numbered(h) ==> Numbered(r.0))
    decreases Rank(s, depth), 0
  {
    if reply.Ok? {
      var text := reply.value;
      var subs := SubProblems(SplitOn(text, '\n'));
      var need := NeedSolution(text);
      var first := ExtractSolution(text);
      var h2 := WithReply(h, idx, subs, need, first);
      assert Numbered(h) ==> Numbered(h2) by {
        if Numbered(h) {
          forall i | 0 <= i < |h2| ensures h2[i].id == i + 1 {
            assert h2[i].id == h[i].id;
          }
        }
      }
      if need.Some? && need.value != "" {
        var sub := SolveCall(s, llm, h2, need.value, depth + 1);
        assert FirstReply(s, llm, h, idx, problem, depth, reply) == SubReply(s, llm, idx, problem, need.value, subs, sub);
        SolveCallRecords(s, llm, h2, need.value, depth + 1);
        SubReplyRecords(s, llm, h2, idx, problem, need.value, subs, sub, depth);
      } else {
        var r := WithSolution(h2, idx, first);
        assert FirstReply(s, llm, h, idx, problem, depth, reply).0 == r;
        if Numbered(h) {
          forall i | 0 <= i < |r| ensures r[i].id == i + 1 {
            assert r[i].id == h2[i].id;
          }
        }
      }
    }
  }

  /** A sub-call that grew the history as Grown says keeps that growth once
      the caller records its final answer. */
  lemma {:induction false} SubReplyRecords(s: Settings, llm: Llm, h2: seq<CallRecord>, idx: nat, problem: string, need: string,
                                           subs: seq<string>, sub: (seq<CallRecord>, Result<Outcome, string>), depth: int)
    requires idx + 1 == |h2| && |h2| <= |sub.0| && sub.0[..|h2|] == h2
    requires h2[idx].depth == depth && depth <= s.maxDepth
    requires Grown(h2, sub.0, depth + 1, s.maxDepth)
    ensures var r := SubReply(s, llm, idx, problem, need, subs, sub);
      && r.0[idx].id == h2[idx].id && r.0[idx].depth == depth && r.0[idx].problem == h2[idx].problem
      && (forall i :: idx <= i < |r.0| ==> depth <= r.0[i].depth <= s.maxDepth)
      && (Numbered(h2) ==> Numbered(r.0))
  {
    var r := SubReply(s, llm, idx, problem, need, subs, sub);
    assert sub.0[idx] == h2[idx] by {
      assert sub.0[idx] == sub.0[..|h2|][idx];
    }
    forall i | idx <= i < |r.0|
      ensures depth <= r.0[i].depth <= s.maxDepth
    {
      if i != idx {
        assert r.0[i] == sub.0[i];
      }
    }
    if Numbered(h2) {
      forall i | 0 <= i < |r.0| ensures r.0[i].id == i + 1 {
        if i != idx {
          assert r.0[i] == sub.0[i];
        }
      }
    }
  }

  /** A first reply with no (or an empty) NEED-SOLUTION ends the call:
      exactly one record is added, holding the reply's sub-problems and
      its solution. */
  lemma {:induction false} SolvedWithoutRecursion(s: Settings, llm: Llm, history: seq<CallRecord>, problem: string, depth: int, response: string)
    requires depth <= s.maxDepth
    requires llm(s.systemPrompt, Decompose(problem), s.temperature, s.maxTokens) == Ok(response)
    requires NeedSolution(response).None? || NeedSolution(response).value == ""
    ensures var r := SolveCall(s, llm, history, problem, depth);
      && |r.0| == |history| + 1
      && r.0[|history|].subProblems == SubProblems(SplitOn(response, '\n'))
      && r.0[|history|].solution == Some(ExtractSolution(response))
      && r.1 == Ok(Solved(ExtractSolution(response), SubProblems(SplitOn(response, '\n'))))
  {
  }

  class Chain {
    const systemPrompt: string
    const maxRecursionDepth: int
    const temperature: real
    const maxTokens: int
    var callHistory: seq<CallRecord>

    constructor(systemPrompt: string, maxRecursionDepth: int, temperature: real, maxTokens: int)
      ensures this.systemPrompt == systemPrompt && this.maxRecursionDepth == maxRecursionDepth
      ensures this.temperature == temperature && this.maxTokens == maxTokens
      ensures callHistory == []
    {
      this.systemPrompt := systemPrompt;
      this.maxRecursionDepth := maxRecursionDepth;
      this.temperature := temperature;
      this.maxTokens := maxTokens;
      callHistory := [];
    }

    function Config(): Settings
    {
      Settings(systemPrompt, maxRecursionDepth, temperature, maxTokens)
    }

    /** `solve(problem, depth)`: the history and the result are those of
        the function SolveCall. */
    method Solve(problem: string, depth: int, llm: Llm) returns (r: Result<Outcome, string>)
      modifies this
      ensures (callHistory, r) == SolveCall(Config(), llm, old(callHistory), problem, depth)
      decreases Rank(Config(), depth)
    {
      if depth > maxRecursionDepth {
        return Ok(DepthExceeded);
      }
      var idx := |callHistory|;
      var callId := idx + 1;
      var record := CallRecord(callId, depth, problem, [], None, None, None);
      callHistory := callHistory + [record];
      var response := llm(systemPrompt, Decompose(problem), temperature, maxTokens);
      if response.Err? {
        return Err(response.error);
      }
      var subs := ExtractSubProblems(response.value);
      var need := NeedSolution(response.value);
      var solution := ExtractSolution(response.value);
      callHistory := callHistory[idx := callHistory[idx].(subProblems := subs, needSolution := Some(need), initialSolution := Some(solution))];
      if need.Some? && need.value != "" {
        var sub := Solve(need.value, depth + 1, llm);
        if sub.Err? {
          return Err(sub.error);
        }
        var response2 := llm(systemPrompt, WithSubSolution(problem, need.value, SolutionText(sub.value)), temperature, maxTokens);
        if response2.Err? {
          return Err(response2.error);
        }
        solution := ExtractSolution(response2.value);
      }
      callHistory := callHistory[idx := callHistory[idx].(solution := Some(solution))];
      return Ok(Solved(solution, subs));
    }
  }
}
