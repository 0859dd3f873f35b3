/** SolnAI's text processing node (SolnAI-agents/nodes/text_processing_node.py):
    `process` reads the configured input variable, runs the configured
    operations in list order on it, and writes a result dictionary into the
    flow's variables. The TextProcessor it calls has neither `remove_html`
    nor `extract_keywords`, so those two always take their fallback paths,
    modelled here. */
module TextProcessingNode {
  import opened Base
  import opened PyJson
  import TextProcessor

  // ---------------------------------------------------------------------
  // remove_html fallback: re.sub(r'<[^>]*>', '', text)
  // ---------------------------------------------------------------------

  /** Every '<' with a '>' somewhere after it starts a tag that runs to the
      first such '>'; the tag is deleted. A '<' with no '>' after it stays. */
  function RemoveHtml(s: string): string
    decreases |s|
  {
    if s == [] then []
    else if s[0] == '<' && '>' in s then RemoveHtml(s[IndexOf(s, '>') + 1..])
    else [s[0]] + RemoveHtml(s[1..])
  }

  /** No '<' is followed, anywhere later, by a '>'. */
  predicate NoTag(s: string)
  {
    forall i, j :: 0 <= i < j < |s| && s[i] == '<' ==> s[j] != '>'
  }

  lemma {:induction false} RemoveHtmlNoClose(s: string)
    requires '>' !in s
    ensures RemoveHtml(s) == s
    decreases |s|
  {
    if s != [] {
      assert '>' !in s[1..] by {
        forall i | 0 <= i < |s[1..]| ensures s[1..][i] != '>' {
          assert s[1..][i] == s[i + 1];
        }
      }
      RemoveHtmlNoClose(s[1..]);
      assert s == [s[0]] + s[1..];
    }
  }

  /** The result holds no tag: every `<...>` span is gone. */
  lemma {:induction false} RemoveHtmlLeavesNoTag(s: string)
    ensures NoTag(RemoveHtml(s))
    decreases |s|
  {
    if s == [] {
    } else if s[0] == '<' && '>' in s {
      RemoveHtmlLeavesNoTag(s[IndexOf(s, '>') + 1..]);
    } else {
      RemoveHtmlLeavesNoTag(s[1..]);
      var t := RemoveHtml(s[1..]);
      var r := [s[0]] + t;
      if s[0] == '<' {
        RemoveHtmlNoClose(s[1..]);
        assert t == s[1..];
        forall j | 0 < j < |r| ensures r[j] != '>' {
          assert r[j] == s[j];
        }
      }
      forall i, j | 0 <= i < j < |r| && r[i] == '<'
        ensures r[j] != '>'
      {
        if i > 0 {
          assert r[i] == t[i - 1] && r[j] == t[j - 1];
        }
      }
    }
  }

  /** Text with no tag is left as it is, so removing tags twice removes no
      more than once. */
  lemma {:induction false} RemoveHtmlKeepsTagless(s: string)
    requires NoTag(s)
    ensures RemoveHtml(s) == s
    decreases |s|
  {
    if s != [] {
      if s[0] == '<' {
        assert '>' !in s by {
          forall j | 0 <= j < |s| ensures s[j] != '>' {
            if j > 0 {
              assert s[0] == '<';
            }
          }
        }
        RemoveHtmlNoClose(s);
      } else {
        assert NoTag(s[1..]) by {
          forall i, j | 0 <= i < j < |s[1..]| && s[1..][i] == '<'
            ensures s[1..][j] != '>'
          {
            assert s[1..][i] == s[i + 1] && s[1..][j] == s[j + 1];
          }
        }
        RemoveHtmlKeepsTagless(s[1..]);
        assert s == [s[0]] + s[1..];
      }
    }
  }

  lemma {:induction false} RemoveHtmlIdempotent(s: string)
    ensures RemoveHtml(RemoveHtml(s)) == RemoveHtml(s)
  {
    RemoveHtmlLeavesNoTag(s);
    RemoveHtmlKeepsTagless(RemoveHtml(s));
  }

  // ---------------------------------------------------------------------
  // extract_keywords fallback
  // ---------------------------------------------------------------------

  /** The length of the leading run of word characters. */
  function RunLength(s: string): (n: nat)
    ensures n <= |s|
    ensures forall i :: 0 <= i < n ==> IsWordChar(s[i])
  {
    if s == [] || !IsWordChar(s[0]) then 0 else 1 + RunLength(s[1..])
  }

  /** `re.findall(r'\w+', s)`: the maximal runs of word characters, in
      order; no uppercase letter of the runs is absent from s. */
  function WordRuns(s: string): (r: seq<string>)
    ensures forall k :: 0 <= k < |r| ==> r[k] != "" && forall i :: 0 <= i < |r[k]| ==> IsWordChar(r[k][i])
    ensures (forall i :: 0 <= i < |s| ==> !('A' <= s[i] <= 'Z')) ==>
              forall k :: 0 <= k < |r| ==> forall i :: 0 <= i < |r[k]| ==> !('A' <= r[k][i] <= 'Z')
    decreases |s|
  {
    if s == [] then []
    else if !IsWordChar(s[0]) then WordRuns(s[1..])
    else
      var n := RunLength(s);
      [s[..n]] + WordRuns(s[n..])
  }

  predicate IsStopword(w: string)
  {
    w in {"the", "a", "an", "and", "or", "but", "is", "are", "was", "were"}
  }

  /** The words kept as keyword candidates. */
  predicate Candidate(w: string)
  {
    !IsStopword(w) && |w| > 3
  }

  function Candidates(ws: seq<string>): (r: seq<string>)
    ensures forall k :: 0 <= k < |r| ==> Candidate(r[k]) && r[k] in ws
  {
    if ws == [] then []
    else if Candidate(ws[0]) then [ws[0]] + Candidates(ws[1..])
    else Candidates(ws[1..])
  }

  /** How often w occurs in ws (the Counter's value for w). */
  function Occurrences(ws: seq<string>, w: string): nat
  {
    if ws == [] then 0 else (if ws[0] == w then 1 else 0) + Occurrences(ws[1..], w)
  }

  /** The Counter's keys: the distinct words, in order of first occurrence. */
  function Distinct(ws: seq<string>): (r: seq<string>)
    ensures forall k :: 0 <= k < |r| ==> r[k] in ws
    ensures forall w :: w in ws ==> w in r
    ensures forall i, j :: 0 <= i < j < |r| ==> r[i] != r[j]
  {
    if ws == [] then []
    else
      var d := Distinct(ws[..|ws| - 1]);
      if ws[|ws| - 1] in d then d else d + [ws[|ws| - 1]]
  }

  /** w placed after every word counted at least as often: the stable
      descending order `most_common` keeps. */
  function Insert(w: string, sorted: seq<string>, ws: seq<string>): (r: seq<string>)
    ensures multiset(r) == multiset(sorted) + multiset{w}
  {
    if sorted == [] then [w]
    else if Occurrences(ws, w) > Occurrences(ws, sorted[0]) then [w] + sorted
    else
      assert sorted == [sorted[0]] + sorted[1..];
      [sorted[0]] + Insert(w, sorted[1..], ws)
  }

  /** Where Insert places w: past every leading word counted at least as
      often as w. */
  function InsertPos(w: string, sorted: seq<string>, ws: seq<string>): (p: nat)
    ensures p <= |sorted|
    ensures forall k :: 0 <= k < p ==> Occurrences(ws, sorted[k]) >= Occurrences(ws, w)
    ensures p < |sorted| ==> Occurrences(ws, sorted[p]) < Occurrences(ws, w)
  {
    if sorted == [] || Occurrences(ws, w) > Occurrences(ws, sorted[0]) then 0
    else
      var q := InsertPos(w, sorted[1..], ws);
      assert forall k :: 0 < k <= q ==> sorted[k] == sorted[1..][k - 1];
      1 + q
  }

  /** Ties keep their order: Insert puts w at InsertPos, after every word
      before it that is counted at least as often (so after all its ties),
      and leaves the other words in their order. */
  lemma {:induction false} InsertAfterTies(w: string, sorted: seq<string>, ws: seq<string>)
    ensures var p := InsertPos(w, sorted, ws);
      Insert(w, sorted, ws) == sorted[..p] + [w] + sorted[p..]
    decreases |sorted|
  {
    if sorted == [] || Occurrences(ws, w) > Occurrences(ws, sorted[0]) {
      SpliceFront(w, sorted);
    } else {
      var tail := sorted[1..];
      InsertAfterTies(w, tail, ws);
      assert sorted == [sorted[0]] + tail;
      SpliceCons(sorted[0], tail, InsertPos(w, tail, ws), w);
    }
  }

  // Sequence steps for InsertAfterTies.

  lemma SpliceFront<T>(w: T, s: seq<T>)
    ensures s[..0] + [w] + s[0..] == [w] + s
  {
  }

  lemma SpliceCons<T>(a: T, tail: seq<T>, q: nat, w: T)
    requires q <= |tail|
    ensures [a] + (tail[..q] + [w] + tail[q..]) == ([a] + tail)[..q + 1] + [w] + ([a] + tail)[q + 1..]
  {
    assert ([a] + tail)[..q + 1] == [a] + tail[..q];
    assert ([a] + tail)[q + 1..] == tail[q..];
  }

  /** Counts never increase along s. */
  predicate ByCount(s: seq<string>, ws: seq<string>)
  {
    forall i, j :: 0 <= i < j < |s| ==> Occurrences(ws, s[i]) >= Occurrences(ws, s[j])
  }

  lemma {:induction false} InsertByCount(w: string, sorted: seq<string>, ws: seq<string>)
    requires ByCount(sorted, ws)
    ensures ByCount(Insert(w, sorted, ws), ws)
    decreases |sorted|
  {
    if sorted != [] && Occurrences(ws, w) <= Occurrences(ws, sorted[0]) {
      var tail := sorted[1..];
      ByCountTail(sorted, ws);
      InsertByCount(w, tail, ws);
      var rest := Insert(w, tail, ws);
      forall k | 0 <= k < |rest|
        ensures Occurrences(ws, sorted[0]) >= Occurrences(ws, rest[k])
      {
        assert rest[k] in multiset(rest);
        assert rest[k] in multiset(tail) || rest[k] == w;
        if rest[k] != w {
          var m :| 0 <= m < |tail| && tail[m] == rest[k];
          assert tail[m] == sorted[m + 1];
        }
      }
      ByCountCons(sorted[0], rest, ws);
    }
  }

  lemma {:induction false} ByCountTail(s: seq<string>, ws: seq<string>)
    requires s != [] && ByCount(s, ws)
    ensures ByCount(s[1..], ws)
  {
    var tail := s[1..];
    forall i, j | 0 <= i < j < |tail|
      ensures Occurrences(ws, tail[i]) >= Occurrences(ws, tail[j])
    {
      assert tail[i] == s[i + 1] && tail[j] == s[j + 1];
    }
  }

  lemma {:induction false} ByCountCons(x: string, rest: seq<string>, ws: seq<string>)
    requires ByCount(rest, ws)
    requires forall k :: 0 <= k < |rest| ==> Occurrences(ws, x) >= Occurrences(ws, rest[k])
    ensures ByCount([x] + rest, ws)
  {
    var r := [x] + rest;
    forall i, j | 0 <= i < j < |r|
      ensures Occurrences(ws, r[i]) >= Occurrences(ws, r[j])
    {
      assert r[j] == rest[j - 1];
      if i > 0 {
        assert r[i] == rest[i - 1];
      }
    }
  }

  /** Counter.most_common() order: the keys sorted by count, most frequent
      first, ties in first-occurrence order. */
  function SortByCount(keys: seq<string>, ws: seq<string>): (r: seq<string>)
    ensures multiset(r) == multiset(keys)
  {
    if keys == [] then []
    else
      assert keys == keys[..|keys| - 1] + [keys[|keys| - 1]];
      Insert(keys[|keys| - 1], SortByCount(keys[..|keys| - 1], ws), ws)
  }

  lemma {:induction false} SortByCountSorted(keys: seq<string>, ws: seq<string>)
    ensures ByCount(SortByCount(keys, ws), ws)
  {
    if keys != [] {
      SortByCountSorted(keys[..|keys| - 1], ws);
      InsertByCount(keys[|keys| - 1], SortByCount(keys[..|keys| - 1], ws), ws);
    }
  }

  /** The words counted for `extract_keywords`. */
  function KeywordWords(text: string): seq<string>
  {
    Candidates(WordRuns(Lower(text)))
  }

  /** `Counter(ws).most_common(10)`'s words. */
  function TopTen(ws: seq<string>): seq<string>
  {
    PyTake(SortByCount(Distinct(ws), ws), 10)
  }

  /** The fallback `extract_keywords`: the ten most common candidates. */
  function Keywords(text: string): seq<string>
  {
    TopTen(KeywordWords(text))
  }

  /** At most ten words, each one of ws, none listed twice. */
  lemma {:induction false} TopTenMembers(ws: seq<string>)
    ensures var r := TopTen(ws);
      && |r| <= 10
      && (forall k :: 0 <= k < |r| ==> r[k] in ws)
      && (forall i, j :: 0 <= i < j < |r| ==> r[i] != r[j])
  {
    var d := Distinct(ws);
    var sorted := SortByCount(d, ws);
    var r := TopTen(ws);
    assert r == sorted[..|r|];
    forall k | 0 <= k < |r|
      ensures r[k] in ws
    {
      assert r[k] == sorted[k] && sorted[k] in multiset(sorted);
      assert r[k] in d;
    }
    forall i, j | 0 <= i < j < |r|
      ensures r[i] != r[j]
    {
      assert r[i] == sorted[i] && r[j] == sorted[j];
      DistinctAfterSort(d, sorted, i, j);
    }
  }

  /** Most frequent first. */
  lemma {:induction false} TopTenByCount(ws: seq<string>)
    ensures ByCount(TopTen(ws), ws)
  {
    var sorted := SortByCount(Distinct(ws), ws);
    var r := TopTen(ws);
    SortByCountSorted(Distinct(ws), ws);
    assert r == sorted[..|r|];
    forall i, j | 0 <= i < j < |r|
      ensures Occurrences(ws, r[i]) >= Occurrences(ws, r[j])
    {
      assert r[i] == sorted[i] && r[j] == sorted[j];
    }
  }

  /** Every word of ws left out occurs no more often than any word kept. */
  lemma {:induction false} TopTenMostCommon(ws: seq<string>)
    ensures var r := TopTen(ws);
      forall w :: w in ws && w !in r ==> forall k :: 0 <= k < |r| ==> Occurrences(ws, r[k]) >= Occurrences(ws, w)
  {
    var d := Distinct(ws);
    var sorted := SortByCount(d, ws);
    var r := TopTen(ws);
    SortByCountSorted(d, ws);
    assert r == sorted[..|r|];
    forall w | w in ws && w !in r
      ensures forall k :: 0 <= k < |r| ==> Occurrences(ws, r[k]) >= Occurrences(ws, w)
    {
      assert w in multiset(sorted) by {
        assert w in d;
      }
      var m :| 0 <= m < |sorted| && sorted[m] == w;
      assert m >= |r|;
      forall k | 0 <= k < |r|
        ensures Occurrences(ws, r[k]) >= Occurrences(ws, w)
      {
        assert r[k] == sorted[k];
      }
    }
  }

  /** Each keyword is a run of word characters, lowercase, longer than
      three characters, not a stopword, and one of the text's words. */
  lemma {:induction false} KeywordsAreCandidates(text: string)
    ensures var r := Keywords(text);
      && (forall k :: 0 <= k < |r| ==> Candidate(r[k]) && r[k] in KeywordWords(text))
      && (forall k :: 0 <= k < |r| ==> forall i :: 0 <= i < |r[k]| ==> IsWordChar(r[k][i]) && !('A' <= r[k][i] <= 'Z'))
  {
    var lower := Lower(text);
    assert forall i :: 0 <= i < |lower| ==> !('A' <= lower[i] <= 'Z');
    var runs := WordRuns(lower);
    var ws := KeywordWords(text);
    var r := Keywords(text);
    TopTenMembers(ws);
    forall k | 0 <= k < |r|
      ensures Candidate(r[k]) && r[k] in runs
    {
      var m :| 0 <= m < |ws| && ws[m] == r[k];
    }
    forall k | 0 <= k < |r|
      ensures forall i :: 0 <= i < |r[k]| ==> IsWordChar(r[k][i]) && !('A' <= r[k][i] <= 'Z')
    {
      var m :| 0 <= m < |runs| && runs[m] == r[k];
    }
  }

  /** A permutation of a list without repeats has none either. */
  lemma {:induction false} DistinctAfterSort(d: seq<string>, sorted: seq<string>, i: nat, j: nat)
    requires multiset(sorted) == multiset(d)
    requires forall a, b :: 0 <= a < b < |d| ==> d[a] != d[b]
    requires i < j < |sorted|
    ensures sorted[i] != sorted[j]
  {
    if sorted[i] == sorted[j] {
      TwiceCounted(sorted, i, j);
      DistinctCount(d, sorted[i]);
    }
  }

  lemma {:induction false} TwiceCounted(s: seq<string>, i: nat, j: nat)
    requires i < j < |s| && s[i] == s[j]
    ensures multiset(s)[s[i]] >= 2
  {
    var x := s[i];
    assert s == s[..i] + [x] + s[i + 1..j] + [x] + s[j + 1..];
  }

  lemma {:induction false} DistinctCount(d: seq<string>, x: string)
    requires forall a, b :: 0 <= a < b < |d| ==> d[a] != d[b]
    ensures multiset(d)[x] <= 1
    decreases |d|
  {
    if d != [] {
      var init := d[..|d| - 1];
      assert d == init + [d[|d| - 1]];
      DistinctCount(init, x);
      if d[|d| - 1] == x {
        assert x !in init by {
          forall a | 0 <= a < |init| ensures init[a] != x {
            assert init[a] == d[a];
          }
        }
      }
    }
  }

  // ---------------------------------------------------------------------
  // process
  // ---------------------------------------------------------------------

  /** The flow's variables, which `process` updates in place and returns. */
  class Variables {
    var entries: Dict

    constructor(entries: Dict)
      ensures this.entries == entries
    {
      this.entries := entries;
    }
  }

  /** The text being transformed and the result dictionary so far. */
  datatype State = State(text: string, result: Dict)

  /** The operations that change the text. */
  predicate Transform(op: string)
  {
    op == "lowercase" || op == "uppercase" || op == "trim" || op == "remove_html"
  }

  /** What a transforming operation makes of the text. */
  function Transformed(op: string, text: string): string
  {
    if op == "lowercase" then Lower(text)
    else if op == "uppercase" then Upper(text)
    else if op == "trim" then Strip(text)
    else RemoveHtml(text)
  }

  /** What any other operation writes into the result dictionary; an
      unknown one writes nothing. */
  function Recorded(op: string, text: string, result: Dict, chunkSize: int): (r: Dict)
    ensures op != "count_tokens" && "token_count" in result ==> "token_count" in r && r["token_count"] == result["token_count"]
    ensures op != "chunk" && "chunks" in result ==> "chunks" in r && r["chunks"] == result["chunks"]
    ensures op != "extract_keywords" && "keywords" in result ==> "keywords" in r && r["keywords"] == result["keywords"]
  {
    if op == "count_tokens" then result["token_count" := JInt(TextProcessor.CountTokens(text))]
    else if op == "chunk" then result["chunks" := StrList(TextProcessor.Chunks(text, chunkSize))]
    else if op == "extract_keywords" then result["keywords" := StrList(Keywords(text))]
    else result
  }

  /** One operation of the loop. */
  function Step(op: string, st: State, chunkSize: int): State
  {
    if Transform(op) then st.(text := Transformed(op, st.text))
    else st.(result := Recorded(op, st.text, st.result, chunkSize))
  }

  /** The operations run in list order from the input text and an empty
      result. */
  function Run(text: string, ops: seq<string>, chunkSize: int): State
  {
    if ops == [] then State(text, map[])
    else Step(ops[|ops| - 1], Run(text, ops[..|ops| - 1], chunkSize), chunkSize)
  }

  /** The variables after `process`. */
  function Processed(inputVariable: string, ops: seq<string>, chunkSize: int, resultVariable: string, vars: Dict): Dict
  {
    if inputVariable == "" || inputVariable !in vars then vars
    else if !vars[inputVariable].JStr? then vars[resultVariable := vars[inputVariable]]
    else
      var st := Run(vars[inputVariable].s, ops, chunkSize);
      if resultVariable == "" then vars
      else vars[resultVariable := JObj(st.result["text" := JStr(st.text)])]
  }

  class Node {
    const inputVariable: string
    const operations: seq<string>
    const chunkSize: int
    const resultVariable: string

    /** The configuration's entries, each defaulted when absent. */
    constructor(inputVariable: Option<string>, operations: Option<seq<string>>, chunkSize: Option<int>, resultVariable: Option<string>)
      ensures this.inputVariable == (if inputVariable.Some? then inputVariable.value else "")
      ensures this.operations == (if operations.Some? then operations.value else ["count_tokens"])
      ensures this.chunkSize == (if chunkSize.Some? then chunkSize.value else 1000)
      ensures this.resultVariable == (if resultVariable.Some? then resultVariable.value else "")
    {
      this.inputVariable := if inputVariable.Some? then inputVariable.value else "";
      this.operations := if operations.Some? then operations.value else ["count_tokens"];
      this.chunkSize := if chunkSize.Some? then chunkSize.value else 1000;
      this.resultVariable := if resultVariable.Some? then resultVariable.value else "";
    }

    /** `process(variables)`: the same variables object, updated in place. */
    method Process(vars: Variables) returns (r: Variables)
      modifies vars
      ensures r == vars
      ensures vars.entries == Processed(inputVariable, operations, chunkSize, resultVariable, old(vars.entries))
    {
      r := vars;
      if inputVariable == "" || inputVariable !in vars.entries {
        return;
      }
      var input := vars.entries[inputVariable];
      if !input.JStr? {
        vars.entries := vars.entries[resultVariable := input];
        return;
      }
      var text := input.s;
      var result: Dict := map[];
      for k := 0 to |operations|
        invariant State(text, result) == Run(input.s, operations[..k], chunkSize)
        invariant vars.entries == old(vars.entries)
      {
        assert operations[..k + 1][..k] == operations[..k];
        var op := operations[k];
        if op == "count_tokens" {
          result := result["token_count" := JInt(TextProcessor.CountTokens(text))];
        } else if op == "chunk" {
          var chunks := TextProcessor.ChunkText(text, chunkSize);
          result := result["chunks" := StrList(chunks)];
        } else if op == "lowercase" {
          text := Lower(text);
        } else if op == "uppercase" {
          text := Upper(text);
        } else if op == "trim" {
          text := Strip(text);
        } else if op == "remove_html" {
          text := RemoveHtml(text);
        } else if op == "extract_keywords" {
          result := result["keywords" := StrList(Keywords(text))];
        }
      }
      assert operations[..|operations|] == operations;
      result := result["text" := JStr(text)];
      if resultVariable != "" {
        vars.entries := vars.entries[resultVariable := JObj(result)];
      }
    }
  }

  // Properties of process

  /** A missing or empty input variable leaves the variables as they are;
      a non-string input is copied to the result variable unchanged. */
  lemma {:induction false} InputChecks(inputVariable: string, ops: seq<string>, chunkSize: int, resultVariable: string, vars: Dict)
    ensures inputVariable == "" || inputVariable !in vars ==> Processed(inputVariable, ops, chunkSize, resultVariable, vars) == vars
    ensures inputVariable != "" && inputVariable in vars && !vars[inputVariable].JStr? ==>
      var out := Processed(inputVariable, ops, chunkSize, resultVariable, vars);
      && resultVariable in out && out[resultVariable] == vars[inputVariable]
      && forall k :: k in vars && k != resultVariable ==> k in out && out[k] == vars[k]
  {
  }

  /** A string input leaves every variable but the result variable as it
      was; the result variable is set exactly when its name is non-empty,
      to a dictionary whose "text" is the text after all the operations. */
  lemma {:induction false} ResultStored(inputVariable: string, ops: seq<string>, chunkSize: int, resultVariable: string, vars: Dict)
    requires inputVariable != "" && inputVariable in vars && vars[inputVariable].JStr?
    ensures var out := Processed(inputVariable, ops, chunkSize, resultVariable, vars);
      && (forall k :: k in vars && k != resultVariable ==> k in out && out[k] == vars[k])
      && (resultVariable == "" ==> out == vars)
      && (resultVariable != "" ==>
            && resultVariable in out && out[resultVariable].JObj?
            && "text" in out[resultVariable].fields
            && out[resultVariable].fields["text"] == JStr(Run(vars[inputVariable].s, ops, chunkSize).text))
  {
  }

  /** Without remove_html the node's text is TextProcessor's `process_text`
      of the same operation list: the other node operations leave it as
      `process_text` leaves an unknown name. */
  lemma {:induction false} RunTextIsProcessText(text: string, ops: seq<string>, chunkSize: int)
    requires forall k :: 0 <= k < |ops| ==> ops[k] != "remove_html"
    ensures Run(text, ops, chunkSize).text == TextProcessor.Processed(text, ops)
    decreases |ops|
  {
    if ops != [] {
      RunTextIsProcessText(text, ops[..|ops| - 1], chunkSize);
    }
  }

  /** The last "count_tokens" in the list decides the token count, and it
      counts the text as the operations before it left it; likewise the last
      "chunk" decides the chunks. */
  lemma {:induction false} CountAndChunksAfterEarlierOps(text: string, a: seq<string>, op: string, b: seq<string>, chunkSize: int)
    requires op == "count_tokens" || op == "chunk"
    requires op !in b
    ensures var before := Run(text, a, chunkSize).text;
      var res := Run(text, a + [op] + b, chunkSize).result;
      && (op == "count_tokens" ==> "token_count" in res && res["token_count"] == JInt(TextProcessor.CountTokens(before)))
      && (op == "chunk" ==> "chunks" in res && res["chunks"] == StrList(TextProcessor.Chunks(before, chunkSize)))
    decreases |b|
  {
    var ab := a + [op] + b;
    if b != [] {
      var last := b[|b| - 1];
      assert ab[..|ab| - 1] == a + [op] + b[..|b| - 1];
      assert ab[|ab| - 1] == last;
      assert last != op;
      CountAndChunksAfterEarlierOps(text, a, op, b[..|b| - 1], chunkSize);
    } else {
      assert ab[..|ab| - 1] == a;
      assert ab[|ab| - 1] == op;
    }
  }

  lemma {:induction false} NoCountWithoutOp(text: string, ops: seq<string>, chunkSize: int)
    ensures "token_count" in Run(text, ops, chunkSize).result <==> "count_tokens" in ops
    ensures "chunks" in Run(text, ops, chunkSize).result <==> "chunk" in ops
    ensures "keywords" in Run(text, ops, chunkSize).result <==> "extract_keywords" in ops
    decreases |ops|
  {
    if ops != [] {
      var init := ops[..|ops| - 1];
      NoCountWithoutOp(text, init, chunkSize);
      assert ops == init + [ops[|ops| - 1]];
    }
  }
}
