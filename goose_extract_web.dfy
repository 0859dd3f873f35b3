/** Goose Tools' web extractor (goose_tools/scripts/extract_web.py): the
    cleaning of the extracted text, the summary placed before it and the
    line limit on the written output. Fetching a page (requests with
    BeautifulSoup, lynx, a headless browser) is I/O and is not modelled;
    `re.search` with a caller's pattern is a parameter
    `search(pattern, line)`. */
module GooseExtractWeb {
  import opened Base
  import GooseExtractCode

  // ---------------------------------------------------------------------
  // clean_content
  // ---------------------------------------------------------------------

  /** The end of the run of digits starting at j. */
  function DigitRunEnd(s: string, j: nat): (e: nat)
    requires j <= |s|
    ensures j <= e <= |s|
    ensures forall i :: j <= i < e ==> IsDigit(s[i])
    ensures e < |s| ==> !IsDigit(s[e])
    decreases |s| - j
  {
    if j < |s| && IsDigit(s[j]) then DigitRunEnd(s, j + 1) else j
  }

  /** The length of the match of `\[[0-9]*\]` at the head of s, if any. */
  function MarkerLength(s: string): (r: Option<nat>)
    ensures r.Some? ==> 2 <= r.value <= |s| && s[0] == '[' && s[r.value - 1] == ']'
    ensures r.Some? ==> forall i :: 1 <= i < r.value - 1 ==> IsDigit(s[i])
  {
    if s != [] && s[0] == '[' then
      var e := DigitRunEnd(s, 1);
      if e < |s| && s[e] == ']' then Some(e + 1) else None
    else None
  }

  /** `re.sub(r'\[[0-9]*\]', '', line)`: one left-to-right pass that deletes
      the "[digits]" markers. */
  function RemoveMarkers(s: string): (r: string)
    ensures |r| <= |s|
    ensures forall i :: 0 <= i < |r| ==> r[i] in s
    decreases |s|
  {
    if s == [] then []
    else if MarkerLength(s).Some? then
      var rest := s[MarkerLength(s).value..];
      var r := RemoveMarkers(rest);
      assert forall i :: 0 <= i < |r| ==> r[i] in s by {
        forall i | 0 <= i < |r|
          ensures r[i] in s
        {
          var j :| 0 <= j < |rest| && rest[j] == r[i];
          assert s[MarkerLength(s).value + j] == r[i];
        }
      }
      r
    else
      var tail := RemoveMarkers(s[1..]);
      assert forall i :: 0 <= i < |tail| ==> tail[i] in s by {
        forall i | 0 <= i < |tail|
          ensures tail[i] in s
        {
          var j :| 0 <= j < |s| - 1 && s[1..][j] == tail[i];
          assert s[1 + j] == tail[i];
        }
      }
      [s[0]] + tail
  }

  /** A character a marker can be made of. */
  predicate MarkerChar(c: char) { c == '[' || c == ']' || IsDigit(c) }

  /** The text of s without the characters markers are made of. */
  function Others(s: string): string
  {
    if s == [] then [] else (if MarkerChar(s[0]) then [] else [s[0]]) + Others(s[1..])
  }

  lemma {:induction false} OthersAppend(a: string, b: string)
    ensures Others(a + b) == Others(a) + Others(b)
    decreases |a|
  {
    if a != [] {
      OthersAppend(a[1..], b);
      assert (a + b)[0] == a[0];
      assert (a + b)[1..] == a[1..] + b;
    } else {
      assert a + b == b;
    }
  }

  lemma {:induction false} OthersOfMarkerChars(s: string)
    requires forall i :: 0 <= i < |s| ==> MarkerChar(s[i])
    ensures Others(s) == []
    decreases |s|
  {
    if s != [] {
      OthersOfMarkerChars(s[1..]);
    }
  }

  /** Removing the markers deletes only '[', ']' and digits: every other
      character of the line is kept, in order. */
  lemma {:induction false} RemoveMarkersKeepsText(s: string)
    ensures Others(RemoveMarkers(s)) == Others(s)
    decreases |s|
  {
    if s != [] {
      if MarkerLength(s).Some? {
        var n := MarkerLength(s).value;
        RemoveMarkersKeepsText(s[n..]);
        assert Others(s) == Others(s[n..]) by {
          MarkerOthers(s, n);
        }
      } else {
        RemoveMarkersKeepsText(s[1..]);
        var t := RemoveMarkers(s[1..]);
        assert RemoveMarkers(s) == [s[0]] + t;
        assert ([s[0]] + t)[0] == s[0];
        assert ([s[0]] + t)[1..] == t;
      }
    }
  }

  /** A marker at the head contributes nothing to the other text. */
  lemma {:induction false} MarkerOthers(s: string, n: nat)
    requires MarkerLength(s) == Some(n)
    ensures Others(s) == Others(s[n..])
  {
    var m := s[..n];
    assert forall i :: 0 <= i < |m| ==> MarkerChar(m[i]) by {
      forall i | 0 <= i < |m|
        ensures MarkerChar(m[i])
      {
        assert m[i] == s[i];
      }
    }
    OthersOfMarkerChars(m);
    OthersAppend(m, s[n..]);
    assert s == m + s[n..];
  }

  /** A "[digits]" marker at the head of a line is deleted. */
  lemma {:induction false} MarkerDropped(digits: string, rest: string)
    requires forall i :: 0 <= i < |digits| ==> IsDigit(digits[i])
    ensures RemoveMarkers("[" + digits + "]" + rest) == RemoveMarkers(rest)
  {
    var s := "[" + digits + "]" + rest;
    DigitRunEndAt(s, 1, |digits| + 1);
    assert s[|digits| + 2..] == rest;
  }

  lemma {:induction false} DigitRunEndAt(s: string, j: nat, e: nat)
    requires j <= e < |s| && !IsDigit(s[e])
    requires forall i :: j <= i < e ==> IsDigit(s[i])
    ensures DigitRunEnd(s, j) == e
    decreases e - j
  {
    if j < e {
      DigitRunEndAt(s, j + 1, e);
    }
  }

  /** A line with no '[' is left as it is. */
  lemma {:induction false} NoBracketUnchanged(s: string)
    requires '[' !in s
    ensures RemoveMarkers(s) == s
    decreases |s|
  {
    if s != [] {
      assert s[0] != '[';
      NoBracketUnchanged(s[1..]);
    }
  }

  /** The removal is a single pass: a marker formed by deleting an inner one
      stays. */
  lemma {:induction false} NestedMarkerStays()
    ensures RemoveMarkers("[[1]]") == "[]"
  {
    var s := "[[1]]";
    assert DigitRunEnd(s, 1) == 1;
    assert MarkerLength(s) == None;
    MarkerDropped("1", "]");
    assert s[1..] == "[" + "1" + "]" + "]";
    assert DigitRunEnd("]", 1) == 1;
    assert RemoveMarkers("]") == "]";
  }

  /** `line.strip()` is truthy. */
  predicate NonBlank(line: string) { Strip(line) != "" }

  /** The lines after the marker removal. */
  function Unmarked(lines: seq<string>, removeLinks: bool): seq<string>
  {
    if removeLinks then MapSeq(RemoveMarkers, lines) else lines
  }

  /** A pattern given and not empty, as Python's truth test on it. */
  predicate Given(pattern: Option<string>) { pattern.Some? && pattern.value != "" }

  /** The line survives the filter and exclude patterns and is not blank. */
  predicate Selected(line: string, filterPattern: Option<string>, excludePattern: Option<string>,
                     search: (string, string) -> bool)
  {
    (!Given(filterPattern) || search(filterPattern.value, line))
    && (!Given(excludePattern) || !search(excludePattern.value, line))
    && NonBlank(line)
  }

  /** The lines `clean_content` keeps: the three comprehensions in turn. */
  function CleanLines(content: string, removeLinks: bool, filterPattern: Option<string>, excludePattern: Option<string>,
                      search: (string, string) -> bool): seq<string>
  {
    var lines := Unmarked(Lines(content), removeLinks);
    var included := if Given(filterPattern) then GooseExtractCode.Filter(line => search(filterPattern.value, line), lines) else lines;
    var kept := if Given(excludePattern) then GooseExtractCode.Filter(line => !search(excludePattern.value, line), included) else included;
    GooseExtractCode.Filter(NonBlank, kept)
  }

  /** `clean_content`: the kept lines joined with newlines. */
  function CleanContent(content: string, removeLinks: bool, filterPattern: Option<string>, excludePattern: Option<string>,
                        search: (string, string) -> bool): string
  {
    Join(CleanLines(content, removeLinks, filterPattern, excludePattern, search), "\n")
  }

  /** Two filters in turn are one filter by the conjunction. */
  lemma {:induction false} FilterFilter(p: string -> bool, q: string -> bool, both: string -> bool, xs: seq<string>)
    requires forall x :: both(x) == (p(x) && q(x))
    ensures GooseExtractCode.Filter(q, GooseExtractCode.Filter(p, xs)) == GooseExtractCode.Filter(both, xs)
    decreases |xs|
  {
    if xs != [] {
      var init := xs[..|xs| - 1];
      var last := xs[|xs| - 1];
      FilterFilter(p, q, both, init);
      var inner := GooseExtractCode.Filter(p, init);
      if p(last) {
        assert GooseExtractCode.Filter(p, xs) == inner + [last];
        assert (inner + [last])[..|inner + [last]| - 1] == inner;
        assert GooseExtractCode.Filter(q, inner + [last]) == GooseExtractCode.Filter(q, inner) + (if q(last) then [last] else []);
      } else {
        assert GooseExtractCode.Filter(p, xs) == inner;
      }
    }
  }

  /** The kept lines are exactly the selected ones, in their order in the
      page: one filter by the conjunction of the three tests. */
  lemma {:induction false} CleanLinesSelected(content: string, removeLinks: bool, filterPattern: Option<string>, excludePattern: Option<string>,
                           search: (string, string) -> bool)
    ensures CleanLines(content, removeLinks, filterPattern, excludePattern, search)
      == GooseExtractCode.Filter(line => Selected(line, filterPattern, excludePattern, search), Unmarked(Lines(content), removeLinks))
  {
    var lines := Unmarked(Lines(content), removeLinks);
    var inc: string -> bool := line => !Given(filterPattern) || search(filterPattern.value, line);
    var exc: string -> bool := line => !Given(excludePattern) || !search(excludePattern.value, line);
    var incExc: string -> bool := line => inc(line) && exc(line);
    var sel: string -> bool := line => Selected(line, filterPattern, excludePattern, search);
    FilterAll(inc, lines);
    FilterAll(exc, GooseExtractCode.Filter(inc, lines));
    FilterFilter(inc, exc, incExc, lines);
    FilterFilter(incExc, NonBlank, sel, lines);
    if Given(filterPattern) {
      FilterSame(line => search(filterPattern.value, line), inc, lines);
    }
    if Given(excludePattern) {
      FilterSame(line => !search(excludePattern.value, line), exc, GooseExtractCode.Filter(inc, lines));
    }
  }

  /** Filtering by an always-true test keeps everything. */
  lemma {:induction false} FilterAll(p: string -> bool, xs: seq<string>)
    ensures (forall x :: p(x)) ==> GooseExtractCode.Filter(p, xs) == xs
    decreases |xs|
  {
    if xs != [] {
      FilterAll(p, xs[..|xs| - 1]);
    }
  }

  /** Filters by tests that agree are equal. */
  lemma {:induction false} FilterSame(p: string -> bool, q: string -> bool, xs: seq<string>)
    requires forall x :: p(x) == q(x)
    ensures GooseExtractCode.Filter(p, xs) == GooseExtractCode.Filter(q, xs)
    decreases |xs|
  {
    if xs != [] {
      FilterSame(p, q, xs[..|xs| - 1]);
    }
  }

  /** No kept line is blank, and a line is kept exactly when it is a
      cleaned line of the page that the tests select. */
  lemma {:induction false} CleanLinesIff(content: string, removeLinks: bool, filterPattern: Option<string>, excludePattern: Option<string>,
                      search: (string, string) -> bool, line: string)
    ensures line in CleanLines(content, removeLinks, filterPattern, excludePattern, search)
      <==> line in Unmarked(Lines(content), removeLinks) && Selected(line, filterPattern, excludePattern, search)
  {
    var sel: string -> bool := l => Selected(l, filterPattern, excludePattern, search);
    var lines := Unmarked(Lines(content), removeLinks);
    CleanLinesSelected(content, removeLinks, filterPattern, excludePattern, search);
    GooseExtractCode.FilterKeepsAll(sel, lines);
    if line in lines && sel(line) {
      var k :| 0 <= k < |lines| && lines[k] == line;
    }
  }

  /** A cleaned line holds no newline. */
  lemma {:induction false} UnmarkedNoNewline(content: string, removeLinks: bool)
    ensures forall k :: 0 <= k < |Unmarked(Lines(content), removeLinks)| ==> '\n' !in Unmarked(Lines(content), removeLinks)[k]
  {
  }

  /** Splitting the cleaned content into lines, as `main` does, gives the
      kept lines back. */
  lemma {:induction false} CleanContentLines(content: string, removeLinks: bool, filterPattern: Option<string>, excludePattern: Option<string>,
                          search: (string, string) -> bool)
    ensures Lines(CleanContent(content, removeLinks, filterPattern, excludePattern, search))
      == CleanLines(content, removeLinks, filterPattern, excludePattern, search)
  {
    var kept := CleanLines(content, removeLinks, filterPattern, excludePattern, search);
    UnmarkedNoNewline(content, removeLinks);
    forall k | 0 <= k < |kept|
      ensures '\n' !in kept[k] && kept[k] != ""
    {
      CleanLinesIff(content, removeLinks, filterPattern, excludePattern, search, kept[k]);
      assert Strip("") == "";
    }
    LinesOfJoin(kept);
  }

  /** Lines that are not empty and hold no newline survive a join and a
      split. */
  lemma {:induction false} LinesOfJoin(parts: seq<string>)
    requires forall k :: 0 <= k < |parts| ==> '\n' !in parts[k] && parts[k] != ""
    ensures Lines(Join(parts, "\n")) == parts
  {
    if parts != [] {
      JoinSplitOn(parts, '\n');
      JoinNotEmpty(parts);
    }
  }

  lemma {:induction false} JoinNotEmpty(parts: seq<string>)
    requires parts != [] && parts[0] != ""
    ensures Join(parts, "\n") != ""
  {
    if |parts| > 1 {
      assert |Join(parts, "\n")| >= |parts[0]|;
    }
  }

  // ---------------------------------------------------------------------
  // generate_summary
  // ---------------------------------------------------------------------

  /** `re.sub(r'https?://', '', url)`: every scheme removed in one pass. */
  function RemoveScheme(s: string): (r: string)
    ensures |r| <= |s|
    decreases |s|
  {
    if s == [] then []
    else if StartsWith(s, "https://") then RemoveScheme(s[8..])
    else if StartsWith(s, "http://") then RemoveScheme(s[7..])
    else [s[0]] + RemoveScheme(s[1..])
  }

  /** `re.sub(r'https?://', '', url).split('/')[0]`: the text up to the
      first '/' once the schemes are gone. */
  function Domain(url: string): (r: string)
    ensures '/' !in r
    ensures r <= RemoveScheme(url)
  {
    var s := RemoveScheme(url);
    if '/' in s then s[..IndexOf(s, '/')] else s
  }

  /** A string whose first k characters hold no ':' and whose next one,
      if any, is '/' does not start with a scheme. */
  lemma {:induction false} NotScheme(s: string, k: nat)
    requires k <= |s| && (forall i :: 0 <= i < k ==> s[i] != ':') && (k < |s| ==> s[k] == '/')
    ensures !StartsWith(s, "https://") && !StartsWith(s, "http://")
  {
    PrefixChar(s, "http://", 4);
    PrefixChar(s, "https://", 5);
    if k < 5 {
      PrefixChar(s, "http://", k);
      PrefixChar(s, "https://", k);
    }
  }

  lemma {:induction false} PrefixChar(s: string, p: string, i: nat)
    requires i < |p|
    ensures StartsWith(s, p) ==> s[i] == p[i]
  {
    if StartsWith(s, p) {
      assert s[..|p|][i] == p[i];
    }
  }

  /** Text with no ':' before a '/' holds no scheme. */
  lemma {:induction false} NoSchemeBefore(a: string, rest: string)
    requires ':' !in a && rest != [] && rest[0] == '/'
    ensures RemoveScheme(a + rest) == a + RemoveScheme(rest)
    decreases |a|
  {
    if a != [] {
      var s := a + rest;
      NotScheme(s, |a|);
      NoSchemeBefore(a[1..], rest);
      assert s[1..] == a[1..] + rest;
      assert RemoveScheme(s) == [a[0]] + RemoveScheme(a[1..] + rest);
      assert [a[0]] + a[1..] == a;
    } else {
      assert a + rest == rest;
    }
  }

  /** A leading scheme is removed. */
  lemma {:induction false} SchemeRemoved(scheme: string, x: string)
    requires scheme == "https://" || scheme == "http://"
    ensures RemoveScheme(scheme + x) == RemoveScheme(x)
  {
    var url := scheme + x;
    assert url[..|scheme|] == scheme;
    if scheme == "http://" {
      assert url[4] == ':';
      assert !StartsWith(url, "https://");
    }
    assert url[|scheme|..] == x;
  }

  /** The domain of "https://host/path" or "http://host/path" is the host. */
  lemma {:induction false} DomainOfUrl(scheme: string, host: string, path: string)
    requires scheme == "https://" || scheme == "http://"
    requires ':' !in host && '/' !in host
    ensures Domain(scheme + host + "/" + path) == host
  {
    var url := scheme + host + "/" + path;
    assert url == scheme + (host + ("/" + path));
    SchemeRemoved(scheme, host + ("/" + path));
    NoSchemeBefore(host, "/" + path);
    var slash := "/" + path;
    NotScheme(slash, 0);
    assert slash[1..] == path;
    assert RemoveScheme(slash) == "/" + RemoveScheme(path);
    var s := host + ("/" + RemoveScheme(path));
    assert RemoveScheme(url) == s;
    assert s[|host|] == '/' && s[..|host|] == host;
    IndexOfFirst(s, '/', |host|);
  }

  lemma {:induction false} IndexOfFirst(s: string, c: char, i: nat)
    requires i < |s| && s[i] == c && c !in s[..i]
    ensures IndexOf(s, c) == i
  {
  }

  /** A character allowed after the first in an all-caps heading. */
  predicate CapsChar(c: char) { ('A' <= c <= 'Z') || IsDigit(c) || c == ' ' }

  /** `^[A-Z][A-Z0-9 ]+` followed by the end of the line. */
  predicate AllCaps(line: string)
  {
    |line| >= 2 && 'A' <= line[0] <= 'Z' && forall i :: 1 <= i < |line| ==> CapsChar(line[i])
  }

  /** `re.match(r'^[A-Z][A-Z0-9 ]+$', line)`: `$` also matches before a
      final newline. */
  predicate AllCapsMatch(line: string)
  {
    AllCaps(line) || (line != [] && line[|line| - 1] == '\n' && AllCaps(line[..|line| - 1]))
  }

  /** A potential heading: an all-caps line or one starting with '#'. */
  predicate IsHeading(line: string) { AllCapsMatch(line) || StartsWith(line, "#") }

  function Bullet(line: string): string { "- " + line }

  /** The listed headings: the first ten heading lines, as bullets. */
  function HeadingBullets(lines: seq<string>): (r: seq<string>)
    ensures |r| <= 10
  {
    MapSeq(Bullet, PyTake(GooseExtractCode.Filter(IsHeading, lines), 10))
  }

  /** The summary's lines before the headings. */
  function SummaryHead(domain: string, count: nat): seq<string>
  {
    ["## Summary",
     "This content was extracted from " + domain + " and contains approximately " + IntToString(count) + " lines of text.",
     "",
     "Main sections:"]
  }

  function SummaryTail(): seq<string> { ["", "## Content", ""] }

  /** `generate_summary` as lines. */
  function SummaryLines(url: string, lines: seq<string>): seq<string>
  {
    SummaryHead(Domain(url), |lines|) + HeadingBullets(lines) + SummaryTail()
  }

  /** `generate_summary`: the heading loop stops at the tenth heading. */
  method GenerateSummary(url: string, lines: seq<string>) returns (summary: string)
    ensures summary == Join(SummaryLines(url, lines), "\n")
  {
    var domain := Domain(url);
    var headings: seq<string> := [];
    for k := 0 to |lines|
      invariant headings == MapSeq(Bullet, GooseExtractCode.Filter(IsHeading, lines[..k]))
      invariant |headings| < 10
    {
      BulletsStep(lines, k);
      if IsHeading(lines[k]) {
        headings := headings + [Bullet(lines[k])];
        if |headings| >= 10 {
          TenthHeading(lines, k + 1);
          break;
        }
      }
    }
    assert headings == HeadingBullets(lines) by {
      if |headings| < 10 {
        assert lines[..|lines|] == lines;
      }
    }
    summary := Join(SummaryHead(domain, |lines|) + headings + SummaryTail(), "\n");
  }

  /** One more line adds its bullet when it is a heading. */
  lemma {:induction false} BulletsStep(lines: seq<string>, k: nat)
    requires k < |lines|
    ensures MapSeq(Bullet, GooseExtractCode.Filter(IsHeading, lines[..k + 1]))
      == MapSeq(Bullet, GooseExtractCode.Filter(IsHeading, lines[..k])) + (if IsHeading(lines[k]) then [Bullet(lines[k])] else [])
  {
    assert lines[..k + 1][..k] == lines[..k];
  }

  /** Once ten headings are found, the later lines change nothing. */
  lemma {:induction false} TenthHeading(lines: seq<string>, k: nat)
    requires k <= |lines| && |GooseExtractCode.Filter(IsHeading, lines[..k])| == 10
    ensures HeadingBullets(lines) == MapSeq(Bullet, GooseExtractCode.Filter(IsHeading, lines[..k]))
  {
    GooseExtractCode.FilterAppend(IsHeading, lines[..k], lines[k..]);
    assert lines[..k] + lines[k..] == lines;
  }

  /** At most ten headings are listed; each is a bullet for a heading line
      of the page, and with fewer than ten heading lines all of them are
      listed, in order. */
  lemma {:induction false} HeadingBulletsShape(lines: seq<string>)
    ensures |HeadingBullets(lines)| == Min(10, |GooseExtractCode.Filter(IsHeading, lines)|)
    ensures forall j :: 0 <= j < |HeadingBullets(lines)| ==>
      BulletOfHeading(lines, HeadingBullets(lines)[j])
    ensures |GooseExtractCode.Filter(IsHeading, lines)| <= 10 ==>
      HeadingBullets(lines) == MapSeq(Bullet, GooseExtractCode.Filter(IsHeading, lines))
  {
    forall j | 0 <= j < |HeadingBullets(lines)|
      ensures BulletOfHeading(lines, HeadingBullets(lines)[j])
    {
      BulletFromLine(lines, j);
    }
  }

  /** b is the bullet for a heading line of the page. */
  predicate BulletOfHeading(lines: seq<string>, b: string)
  {
    exists k :: 0 <= k < |lines| && IsHeading(lines[k]) && b == Bullet(lines[k])
  }

  lemma {:induction false} BulletFromLine(lines: seq<string>, j: nat)
    requires j < |HeadingBullets(lines)|
    ensures BulletOfHeading(lines, HeadingBullets(lines)[j])
  {
    var found := GooseExtractCode.Filter(IsHeading, lines);
    var t := PyTake(found, 10);
    assert t[j] == found[j] && HeadingBullets(lines)[j] == Bullet(t[j]);
    assert found[j] in lines && IsHeading(found[j]);
    var k :| 0 <= k < |lines| && lines[k] == found[j];
    assert IsHeading(lines[k]) && HeadingBullets(lines)[j] == Bullet(lines[k]);
  }

  // ---------------------------------------------------------------------
  // main: the line limit on the output
  // ---------------------------------------------------------------------

  /** The note appended when lines were dropped. */
  function NoteLine(dropped: int): string
  {
    "\n# Note: " + IntToString(dropped) + " additional lines were truncated"
  }

  /** The content part of `main`'s output as written: `lines[:m]` with
      m = min(len(lines), max_lines), then the note when len(lines) > m. A
      negative max_lines counts from the end. */
  function TruncatedAsWritten(lines: seq<string>, maxLines: int): seq<string>
  {
    var m := Min(|lines|, maxLines);
    PyTake(lines, m) + (if |lines| > m then [NoteLine(|lines| - m)] else [])
  }

  /** The content part as intended: a negative limit keeps no line. */
  function Truncated(lines: seq<string>, maxLines: int): seq<string>
  {
    var m := Max(0, Min(|lines|, maxLines));
    lines[..m] + (if |lines| > m then [NoteLine(|lines| - m)] else [])
  }

  /** The first min(len, max_lines) lines are kept (none for a negative
      limit), the note is added exactly when lines were dropped, and it
      reports the lines that were dropped. */
  lemma {:induction false} TruncatedShape(lines: seq<string>, maxLines: int)
    ensures var kept := if maxLines < 0 then 0 else Min(|lines|, maxLines);
      Truncated(lines, maxLines)[..kept] == lines[..kept]
      && (|lines| > maxLines && |lines| > 0 <==> |Truncated(lines, maxLines)| == kept + 1)
      && (|lines| > kept ==> Truncated(lines, maxLines)[kept] == NoteLine(|lines| - kept))
      && |Truncated(lines, maxLines)| <= kept + 1
  {
  }

  /** For a limit that is not negative the code as written is as intended. */
  lemma {:induction false} TruncatedAgrees(lines: seq<string>, maxLines: int)
    requires maxLines >= 0
    ensures TruncatedAsWritten(lines, maxLines) == Truncated(lines, maxLines)
  {
  }

  /** As written, a negative limit drops the last lines yet the note counts
      more lines than the page has: with ten lines and -5, five are kept
      and fifteen reported. */
  lemma {:induction false} NegativeLimitAsWritten(lines: seq<string>, maxLines: int)
    requires maxLines < 0 && |lines| + maxLines >= 0
    ensures TruncatedAsWritten(lines, maxLines) == lines[..|lines| + maxLines] + [NoteLine(|lines| - maxLines)]
  {
  }
}
