/** The pure-Python fallback paths of SolnAI's TextProcessor
    (SolnAI-agents/shared/utils/text_processor.py): whitespace token counts,
    word chunking, the lowercase/uppercase/trim pipeline and their batch
    forms. The Rust extension they defer to when it is installed is not part
    of this model. */
module TextProcessor {
  import opened Base

  // ---------------------------------------------------------------------
  // count_tokens
  // ---------------------------------------------------------------------

  /** `len(text.split())`. */
  function CountTokens(text: string): nat
  {
    |Words(text)|
  }

  /** `count_tokens_batch`: one count per text, in order. */
  function CountTokensBatch(texts: seq<string>): (r: seq<nat>)
    ensures |r| == |texts|
    ensures forall i :: 0 <= i < |texts| ==> r[i] == CountTokens(texts[i])
  {
    MapSeq(CountTokens, texts)
  }

  // ---------------------------------------------------------------------
  // chunk_text
  // ---------------------------------------------------------------------

  /** A chunk closes once it holds chunk_size words; since it always holds
      at least one word by then, a size below 1 closes it after every word. */
  function GroupSize(chunkSize: int): (n: nat)
    ensures n >= 1
  {
    if chunkSize <= 1 then 1 else chunkSize
  }

  /** The words cut into consecutive runs of n, the last one possibly
      shorter. */
  function Groups(ws: seq<string>, n: nat): seq<seq<string>>
    requires n >= 1
    decreases |ws|
  {
    if ws == [] then []
    else if |ws| <= n then [ws]
    else [ws[..n]] + Groups(ws[n..], n)
  }

  function JoinWords(ws: seq<string>): string
  {
    Join(ws, " ")
  }

  /** The fallback `chunk_text(text, chunk_size)`. */
  function Chunks(text: string, chunkSize: int): seq<string>
  {
    MapSeq(JoinWords, Groups(Words(text), GroupSize(chunkSize)))
  }

  function Flatten<T>(xss: seq<seq<T>>): (r: seq<T>)
  {
    if xss == [] then [] else xss[0] + Flatten(xss[1..])
  }

  lemma {:induction false} FlattenAppend<T>(a: seq<seq<T>>, b: seq<seq<T>>)
    ensures Flatten(a + b) == Flatten(a) + Flatten(b)
  {
    if a == [] {
      assert a + b == b;
    } else {
      assert (a + b)[1..] == a[1..] + b;
      FlattenAppend(a[1..], b);
    }
  }

  /** Full runs of n words followed by more words are cut into those runs,
      then the rest. */
  lemma {:induction false} GroupsAfterFull(d: seq<seq<string>>, b: seq<string>, n: nat)
    requires n >= 1 && forall i :: 0 <= i < |d| ==> |d[i]| == n
    ensures Groups(Flatten(d) + b, n) == d + Groups(b, n)
  {
    if d == [] {
      assert Flatten(d) + b == b;
    } else {
      var rest := Flatten(d[1..]) + b;
      assert Flatten(d) + b == d[0] + rest;
      GroupsAfterFull(d[1..], b, n);
      if rest == [] {
        assert d[1..] == [];
        assert d[0] + rest == d[0];
      } else {
        assert (d[0] + rest)[..n] == d[0];
        assert (d[0] + rest)[n..] == rest;
      }
    }
  }

  /** The groups, in order, give back the words. */
  lemma {:induction false} GroupsFlatten(ws: seq<string>, n: nat)
    requires n >= 1
    ensures Flatten(Groups(ws, n)) == ws
    decreases |ws|
  {
    if ws != [] && |ws| > n {
      GroupsFlatten(ws[n..], n);
      assert ws[..n] + ws[n..] == ws;
    }
  }

  /** Every group holds exactly n words except the last, which holds
      between 1 and n. */
  lemma {:induction false} GroupsSizes(ws: seq<string>, n: nat)
    requires n >= 1
    ensures var g := Groups(ws, n);
      && (forall i :: 0 <= i < |g| ==> 1 <= |g[i]| <= n)
      && (forall i :: 0 <= i < |g| - 1 ==> |g[i]| == n)
    decreases |ws|
  {
    if ws != [] && |ws| > n {
      GroupsSizes(ws[n..], n);
      var g := Groups(ws, n);
      assert g == [ws[..n]] + Groups(ws[n..], n);
      forall i | 0 < i < |g|
        ensures g[i] == Groups(ws[n..], n)[i - 1]
      {
      }
    }
  }

  /** `chunk_text` as the loop writes it: the words gathered one by one into
      the current chunk, which is closed and joined with spaces whenever it
      reaches chunk_size, and once more at the end when words remain. */
  method ChunkText(text: string, chunkSize: int) returns (chunks: seq<string>)
    ensures chunks == Chunks(text, chunkSize)
  {
    chunks := ChunkWords(Words(text), chunkSize);
  }

  /** The loop of `chunk_text` over the text's words. */
  method ChunkWords(words: seq<string>, chunkSize: int) returns (chunks: seq<string>)
    ensures chunks == MapSeq(JoinWords, Groups(words, GroupSize(chunkSize)))
  {
    ghost var n := GroupSize(chunkSize);
    ghost var done: seq<seq<string>> := [];
    ghost var start := 0;
    chunks := [];
    var current: seq<string> := [];
    var count := 0;
    for k := 0 to |words|
      invariant 0 <= start <= k && count == k - start == |current| < n
      invariant current == words[start..k]
      invariant forall i :: 0 <= i < |done| ==> |done[i]| == n
      invariant Flatten(done) == words[..start]
      invariant chunks == MapSeq(JoinWords, done)
    {
      current := current + [words[k]];
      count := count + 1;
      assert words[start..k + 1] == words[start..k] + [words[k]];
      if count >= chunkSize {
        assert Flatten(done + [current]) == words[..k + 1] by {
          FlattenAppend(done, [current]);
          assert Flatten([current]) == current;
          assert words[..k + 1] == words[..start] + words[start..k + 1];
        }
        done := done + [current];
        start := k + 1;
        chunks := chunks + [Join(current, " ")];
        current := [];
        count := 0;
      }
    }
    assert words == Flatten(done) + current;
    GroupsAfterFull(done, current, n);
    if current != [] {
      assert Groups(current, n) == [current];
      chunks := chunks + [Join(current, " ")];
    }
  }

  /** `chunk_text_batch`: the chunks of each text, in order. */
  function ChunkTextBatch(texts: seq<string>, chunkSize: int): (r: seq<seq<string>>)
    ensures |r| == |texts|
    ensures forall i :: 0 <= i < |texts| ==> r[i] == Chunks(texts[i], chunkSize)
  {
    MapSeq((t: string) => Chunks(t, chunkSize), texts)
  }

  // The chunks re-read as words

  predicate IsWord(w: string)
  {
    w != "" && forall i :: 0 <= i < |w| ==> !IsSpace(w[i])
  }

  lemma {:induction false} WordsSpaced(x: string)
    ensures Words(" " + x) == Words(x)
  {
    var s := " " + x;
    assert LeadingSpace(s) == 1 + LeadingSpace(x) by {
      assert s[1..] == x;
    }
    assert LStrip(s) == LStrip(x) by {
      assert s[1..] == x;
    }
  }

  lemma {:induction false} WordsLeading(w: string, rest: string)
    requires IsWord(w)
    requires rest == [] || IsSpace(rest[0])
    ensures Words(w + rest) == [w] + Words(rest)
  {
    var s := w + rest;
    assert LeadingSpace(s) == 0 by {
      assert s[0] == w[0];
    }
    assert LStrip(s) == s;
    WordLengthOf(w, rest);
    assert s[..|w|] == w;
    assert s[|w|..] == rest;
  }

  lemma {:induction false} WordLengthOf(w: string, rest: string)
    requires forall i :: 0 <= i < |w| ==> !IsSpace(w[i])
    requires rest == [] || IsSpace(rest[0])
    ensures WordLength(w + rest) == |w|
    decreases |w|
  {
    if w != [] {
      assert (w + rest)[1..] == w[1..] + rest;
      WordLengthOf(w[1..], rest);
    } else {
      assert w + rest == rest;
    }
  }

  /** Words joined with single spaces are read back as those words. */
  lemma {:induction false} WordsOfJoin(ws: seq<string>)
    requires forall k :: 0 <= k < |ws| ==> IsWord(ws[k])
    ensures Words(JoinWords(ws)) == ws
    decreases |ws|
  {
    if |ws| == 0 {
    } else if |ws| == 1 {
      WordsLeading(ws[0], "");
      assert ws[0] + "" == ws[0];
    } else {
      var tail := JoinWords(ws[1..]);
      assert JoinWords(ws) == ws[0] + (" " + tail);
      WordsLeading(ws[0], " " + tail);
      WordsSpaced(tail);
      WordsOfJoin(ws[1..]);
    }
  }

  /** Each chunk re-read as words is its group, and the chunks' words, in
      order, are the text's words: chunking loses, adds and reorders no
      word. */
  lemma {:induction false} ChunksKeepWords(text: string, chunkSize: int)
    ensures var g := Groups(Words(text), GroupSize(chunkSize));
      && |Chunks(text, chunkSize)| == |g|
      && (forall i :: 0 <= i < |g| ==> Words(Chunks(text, chunkSize)[i]) == g[i])
      && Flatten(MapSeq(Words, Chunks(text, chunkSize))) == Words(text)
  {
    var ws := Words(text);
    var n := GroupSize(chunkSize);
    var g := Groups(ws, n);
    var c := Chunks(text, chunkSize);
    forall i | 0 <= i < |g|
      ensures Words(c[i]) == g[i]
    {
      GroupMembers(ws, n, i);
      WordsOfJoin(g[i]);
    }
    assert MapSeq(Words, c) == g;
    GroupsFlatten(ws, n);
  }

  /** The members of every group are members of the cut sequence. */
  lemma {:induction false} GroupMembers(ws: seq<string>, n: nat, i: nat)
    requires n >= 1 && i < |Groups(ws, n)|
    requires forall k :: 0 <= k < |ws| ==> IsWord(ws[k])
    ensures forall k :: 0 <= k < |Groups(ws, n)[i]| ==> IsWord(Groups(ws, n)[i][k])
    decreases |ws|
  {
    if |ws| > n && i > 0 {
      GroupMembers(ws[n..], n, i - 1);
    }
  }

  /** No chunk is empty, every chunk but the last holds exactly chunk_size
      words (at least one), and the whole text's token count is the sum of
      the chunks' counts. */
  lemma {:induction false} ChunkSizes(text: string, chunkSize: int)
    ensures var c := Chunks(text, chunkSize);
      && (forall i :: 0 <= i < |c| ==> c[i] != "" && 1 <= CountTokens(c[i]) <= GroupSize(chunkSize))
      && (forall i :: 0 <= i < |c| - 1 ==> CountTokens(c[i]) == GroupSize(chunkSize))
      && SumCounts(c) == CountTokens(text)
  {
    var ws := Words(text);
    var n := GroupSize(chunkSize);
    var g := Groups(ws, n);
    var c := Chunks(text, chunkSize);
    ChunksKeepWords(text, chunkSize);
    GroupsSizes(ws, n);
    forall i | 0 <= i < |c|
      ensures c[i] != ""
    {
      assert Words(c[i]) == g[i];
    }
    SumCountsFlatten(c);
  }

  function SumCounts(texts: seq<string>): nat
  {
    if texts == [] then 0 else CountTokens(texts[0]) + SumCounts(texts[1..])
  }

  lemma {:induction false} SumCountsFlatten(texts: seq<string>)
    ensures SumCounts(texts) == |Flatten(MapSeq(Words, texts))|
  {
    if texts != [] {
      SumCountsFlatten(texts[1..]);
      assert MapSeq(Words, texts) == [Words(texts[0])] + MapSeq(Words, texts[1..]);
      FlattenAppend([Words(texts[0])], MapSeq(Words, texts[1..]));
    }
  }

  // ---------------------------------------------------------------------
  // process_text
  // ---------------------------------------------------------------------

  /** One operation of `process_text`; any other name leaves the text as
      it is. */
  function Apply(op: string, text: string): string
  {
    if op == "lowercase" then Lower(text)
    else if op == "uppercase" then Upper(text)
    else if op == "trim" then Strip(text)
    else text
  }

  predicate Known(op: string)
  {
    op == "lowercase" || op == "uppercase" || op == "trim"
  }

  /** The text after the operations, applied in list order. */
  function Processed(text: string, ops: seq<string>): string
  {
    if ops == [] then text else Apply(ops[|ops| - 1], Processed(text, ops[..|ops| - 1]))
  }

  /** The fallback `process_text`: `result` reassigned once per operation. */
  method ProcessText(text: string, ops: seq<string>) returns (result: string)
    ensures result == Processed(text, ops)
  {
    result := text;
    for k := 0 to |ops|
      invariant result == Processed(text, ops[..k])
    {
      assert ops[..k + 1][..k] == ops[..k];
      if ops[k] == "lowercase" {
        result := Lower(result);
      } else if ops[k] == "uppercase" {
        result := Upper(result);
      } else if ops[k] == "trim" {
        result := Strip(result);
      }
    }
    assert ops[..|ops|] == ops;
  }

  /** Running two lists of operations one after the other is running their
      concatenation. */
  lemma {:induction false} ProcessedAppend(text: string, a: seq<string>, b: seq<string>)
    ensures Processed(text, a + b) == Processed(Processed(text, a), b)
    decreases |b|
  {
    if b == [] {
      assert a + b == a;
    } else {
      assert (a + b)[..|a + b| - 1] == a + b[..|b| - 1];
      ProcessedAppend(text, a, b[..|b| - 1]);
    }
  }

  function KnownOnly(ops: seq<string>): (r: seq<string>)
    ensures forall k :: 0 <= k < |r| ==> Known(r[k])
  {
    if ops == [] then []
    else if Known(ops[|ops| - 1]) then KnownOnly(ops[..|ops| - 1]) + [ops[|ops| - 1]]
    else KnownOnly(ops[..|ops| - 1])
  }

  /** Unknown operation names are ignored: dropping them changes nothing. */
  lemma {:induction false} UnknownIgnored(text: string, ops: seq<string>)
    ensures Processed(text, ops) == Processed(text, KnownOnly(ops))
    decreases |ops|
  {
    if ops != [] {
      var init := ops[..|ops| - 1];
      UnknownIgnored(text, init);
      if Known(ops[|ops| - 1]) {
        var r := KnownOnly(init) + [ops[|ops| - 1]];
        assert r[..|r| - 1] == KnownOnly(init);
      }
    }
  }

  /** Lowercasing then trimming leaves lowercase, trimmed text, whatever
      the input. */
  lemma {:induction false} LowercaseThenTrim(text: string)
    ensures var r := Processed(text, ["lowercase", "trim"]);
      && (forall i :: 0 <= i < |r| ==> !('A' <= r[i] <= 'Z'))
      && (r == [] || (!IsSpace(r[0]) && !IsSpace(r[|r| - 1])))
  {
    var l := Lower(text);
    assert Processed(text, ["lowercase"]) == l by {
      assert ["lowercase"][..0] == [];
      assert Apply("lowercase", text) == l;
    }
    assert Processed(text, ["lowercase", "trim"]) == Strip(l) by {
      assert ["lowercase", "trim"][..1] == ["lowercase"];
      assert Apply("trim", l) == Strip(l);
    }
    StripKeepsNoUpper(l);
  }

  lemma {:induction false} StripKeepsNoUpper(l: string)
    requires forall i :: 0 <= i < |l| ==> !('A' <= l[i] <= 'Z')
    ensures forall i :: 0 <= i < |Strip(l)| ==> !('A' <= Strip(l)[i] <= 'Z')
  {
    var r := Strip(l);
    var a, b :| 0 <= a <= b <= |l| && r == l[a..b];
    forall i | 0 <= i < |r|
      ensures !('A' <= r[i] <= 'Z')
    {
      assert r[i] == l[a + i];
    }
  }

  /** `process_text_batch`: the same operations on each text, in order. */
  function ProcessTextBatch(texts: seq<string>, ops: seq<string>): (r: seq<string>)
    ensures |r| == |texts|
    ensures forall i :: 0 <= i < |texts| ==> r[i] == Processed(texts[i], ops)
  {
    MapSeq((t: string) => Processed(t, ops), texts)
  }
}
