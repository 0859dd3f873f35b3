/** AutoGroq's JSON scraping helpers (AutoGroq/AutoGroq/utils/ui_utils.py):
    `extract_json_objects`, which cuts brace-balanced candidates out of
    model output and keeps those that parse, and `parse_json`. `json.loads`
    is a parameter: it maps a text to the value it parses to, or None where
    it raises JSONDecodeError. */
module UiUtils {
  import opened Base
  import opened PyJson

  /** json.loads: the parsed value, or None for a JSONDecodeError. */
  type Parser = string -> Option<Json>

  // ---------------------------------------------------------------------
  // The brace scan, as functions of the prefix read so far
  // ---------------------------------------------------------------------

  /** The stack height after reading text[..n]: '{' pushes, '}' pops when
      the stack is non-empty, any other character leaves it alone. */
  function Depth(text: string, n: nat): nat
    requires n <= |text|
  {
    if n == 0 then 0
    else if text[n - 1] == '{' then Depth(text, n - 1) + 1
    else if text[n - 1] == '}' && Depth(text, n - 1) > 0 then Depth(text, n - 1) - 1
    else Depth(text, n - 1)
  }

  /** start_index after reading text[..n]: the position of the last '{'
      read at depth 0. */
  function StartIndex(text: string, n: nat): (s: nat)
    requires n <= |text|
    ensures s <= n
    ensures n > 0 ==> s < n
  {
    if n == 0 then 0
    else if text[n - 1] == '{' && Depth(text, n - 1) == 0 then n - 1
    else StartIndex(text, n - 1)
  }

  /** The '}' at position n closes a candidate. */
  predicate ClosesAt(text: string, n: nat)
    requires n < |text|
  {
    text[n] == '}' && Depth(text, n) == 1
  }

  /** The spans (lo, hi) of the candidates completed in text[..n]. */
  function Spans(text: string, n: nat): (r: seq<(nat, nat)>)
    requires n <= |text|
    ensures forall k :: 0 <= k < |r| ==> r[k].0 < r[k].1 <= n
  {
    if n == 0 then []
    else if ClosesAt(text, n - 1) then Spans(text, n - 1) + [(StartIndex(text, n - 1), n)]
    else Spans(text, n - 1)
  }

  /** text[lo:hi] opens with a '{' read at depth 0 and is exactly the
      stretch until the depth first comes back to 0. */
  predicate Balanced(text: string, lo: nat, hi: nat)
  {
    && lo < hi <= |text|
    && text[lo] == '{'
    && Depth(text, lo) == 0
    && Depth(text, hi) == 0
    && forall j :: lo < j < hi ==> Depth(text, j) > 0
  }

  function Slices(text: string, spans: seq<(nat, nat)>): (r: seq<string>)
    requires forall k :: 0 <= k < |spans| ==> spans[k].0 <= spans[k].1 <= |text|
    ensures |r| == |spans|
    ensures forall k :: 0 <= k < |spans| ==> r[k] == text[spans[k].0..spans[k].1]
  {
    seq(|spans|, k requires 0 <= k < |spans| => text[spans[k].0..spans[k].1])
  }

  // ---------------------------------------------------------------------
  // What the scan finds
  // ---------------------------------------------------------------------

  /** While the stack is non-empty, start_index is the '{' that opened it
      and the depth has stayed positive since. */
  lemma {:induction false} OpenRun(text: string, n: nat)
    requires n <= |text| && Depth(text, n) > 0
    ensures StartIndex(text, n) < n
    ensures text[StartIndex(text, n)] == '{' && Depth(text, StartIndex(text, n)) == 0
    ensures forall j :: StartIndex(text, n) < j <= n ==> Depth(text, j) > 0
  {
    if text[n - 1] == '{' && Depth(text, n - 1) == 0 {
    } else {
      OpenRun(text, n - 1);
    }
  }

  /** A depth that is 0 at lo and positive on (lo, n] pins start_index
      down to lo. */
  lemma {:induction false} OpenRunUnique(text: string, lo: nat, n: nat)
    requires lo < n <= |text| && Depth(text, lo) == 0
    requires forall j :: lo < j <= n ==> Depth(text, j) > 0
    ensures StartIndex(text, n) == lo
  {
    OpenRun(text, n);
  }

  /** Every span found so far is a balanced candidate ending by n, and the
      spans are in order without overlap. */
  lemma {:induction false} SpansBalanced(text: string, n: nat)
    requires n <= |text|
    ensures forall k :: 0 <= k < |Spans(text, n)| ==> Balanced(text, Spans(text, n)[k].0, Spans(text, n)[k].1)
    ensures forall k :: 0 <= k < |Spans(text, n)| ==> Spans(text, n)[k].1 <= n
    ensures forall k :: 0 < k < |Spans(text, n)| ==> Spans(text, n)[k - 1].1 <= Spans(text, n)[k].0
  {
    if n > 0 {
      SpansBalanced(text, n - 1);
      if ClosesAt(text, n - 1) {
        OpenRun(text, n - 1);
        var lo := StartIndex(text, n - 1);
        var prev := Spans(text, n - 1);
        var sp := Spans(text, n);
        assert sp == prev + [(lo, n)];
        assert Depth(text, n) == 0;
        assert Balanced(text, lo, n);
        if |prev| > 0 {
          var h := prev[|prev| - 1].1;
          assert Depth(text, h) == 0;
          assert h <= lo;
        }
      }
    }
  }

  /** A balanced stretch that ends by n has been found by then. */
  lemma {:induction false} BalancedFound(text: string, lo: nat, hi: nat, n: nat)
    requires Balanced(text, lo, hi) && hi <= n <= |text|
    ensures (lo, hi) in Spans(text, n)
  {
    if n > hi {
      BalancedFound(text, lo, hi, n - 1);
    } else {
      assert Depth(text, lo + 1) == 1;
      assert lo + 1 < hi;
      assert Depth(text, hi - 1) > 0;
      assert ClosesAt(text, hi - 1);
      OpenRunUnique(text, lo, hi - 1);
    }
  }

  /** The candidates are exactly the balanced stretches: the '{' at depth 0
      through the '}' that brings the depth back to 0. A '}' at depth 0 and
      an unclosed '{' contribute nothing. */
  lemma {:induction false} SpansExactly(text: string, lo: nat, hi: nat)
    ensures (lo, hi) in Spans(text, |text|) <==> Balanced(text, lo, hi)
  {
    SpansBalanced(text, |text|);
    if Balanced(text, lo, hi) {
      BalancedFound(text, lo, hi, |text|);
    }
  }

  // ---------------------------------------------------------------------
  // extract_json_objects
  // ---------------------------------------------------------------------

  /** The candidate strings, in order. */
  function Candidates(text: string): seq<string>
  {
    Slices(text, Spans(text, |text|))
  }

  /** The parsed values of the candidates that parse, in order. */
  function ParsedAll(parse: Parser, objects: seq<string>): (r: seq<Json>)
    ensures |r| <= |objects|
    ensures forall j :: j in r ==> exists o :: o in objects && parse(o) == Some(j)
  {
    if objects == [] then []
    else
      var rest := ParsedAll(parse, objects[1..]);
      var p := parse(objects[0]);
      if p.Some? then [p.value] + rest else rest
  }

  /** The first loop of extract_json_objects: scan the characters with a
      stack of open braces. */
  method ScanCandidates(text: string) returns (objects: seq<string>)
    ensures objects == Candidates(text)
  {
    objects := [];
    var stack: seq<char> := [];
    var startIndex: nat := 0;
    var i := 0;
    while i < |text|
      invariant 0 <= i <= |text|
      invariant |stack| == Depth(text, i)
      invariant startIndex == StartIndex(text, i)
      invariant objects == Slices(text, Spans(text, i))
    {
      var ch := text[i];
      if ch == '{' {
        if |stack| == 0 {
          startIndex := i;
        }
        stack := stack + [ch];
      } else if ch == '}' {
        if |stack| > 0 {
          stack := stack[..|stack| - 1];
          if |stack| == 0 {
            objects := objects + [text[startIndex..i + 1]];
          }
        }
      }
      i := i + 1;
    }
  }

  /** The second loop: keep the candidates that parse, in order. */
  method ParseCandidates(parse: Parser, objects: seq<string>) returns (parsed: seq<Json>)
    ensures parsed == ParsedAll(parse, objects)
  {
    parsed := [];
    var k := 0;
    while k < |objects|
      invariant 0 <= k <= |objects|
      invariant parsed == ParsedAll(parse, objects[..k])
    {
      var p := parse(objects[k]);
      assert objects[..k + 1] == objects[..k] + [objects[k]];
      ParsedAllAppend(parse, objects[..k], [objects[k]]);
      ParsedOne(parse, objects[k]);
      if p.Some? {
        parsed := parsed + [p.value];
      }
      k := k + 1;
    }
    assert objects[..k] == objects;
  }

  method ExtractJsonObjects(parse: Parser, text: string) returns (parsed: seq<Json>)
    ensures parsed == ParsedAll(parse, Candidates(text))
  {
    var objects := ScanCandidates(text);
    parsed := ParseCandidates(parse, objects);
  }

  /** Parsing a concatenation parses each part: the kept values stay in
      their order, and each candidate contributes its value or nothing. */
  lemma {:induction false} ParsedAllAppend(parse: Parser, a: seq<string>, b: seq<string>)
    ensures ParsedAll(parse, a + b) == ParsedAll(parse, a) + ParsedAll(parse, b)
  {
    if a != [] {
      assert (a + b)[0] == a[0] && (a + b)[1..] == a[1..] + b;
      ParsedAllAppend(parse, a[1..], b);
    } else {
      assert a + b == b;
    }
  }

  /** One candidate gives its value when it parses and nothing when it
      does not. */
  lemma {:induction false} ParsedOne(parse: Parser, o: string)
    ensures parse(o).Some? ==> ParsedAll(parse, [o]) == [parse(o).value]
    ensures parse(o).None? ==> ParsedAll(parse, [o]) == []
  {
    assert [o][1..] == [];
  }

  // ---------------------------------------------------------------------
  // parse_json
  // ---------------------------------------------------------------------

  /** parse_json: the parsed list, or [] when the text does not parse or
      parses to something other than a list. */
  function ParseJson(parse: Parser, content: string): (r: seq<Json>)
    ensures parse(content).Some? && parse(content).value.JList? ==> r == parse(content).value.items
    ensures !(parse(content).Some? && parse(content).value.JList?) ==> r == []
  {
    var p := parse(content);
    if p.Some? && p.value.JList? then p.value.items else []
  }
}
