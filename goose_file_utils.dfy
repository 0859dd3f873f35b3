/** Goose Tools' file helpers (goose_tools/utils/file_utils.py): the token
    and size formatters, the character-count token estimate, metadata
    files of `key: value` lines, and file-name sanitising. The file system
    is left out: whether a file exists and what it holds are parameters. */
module GooseFileUtils {
  import opened Base
  import opened PyJson

  // ---------------------------------------------------------------------
  // Formatters and the token estimate
  // ---------------------------------------------------------------------

  /** `format(x, ".1f")` of the quotient, supplied by the caller. */
  type OneDecimal = real -> string

  /** `format_token_count`: the plain count below 1000, else thousands
      ("K") or millions ("M") with one decimal. */
  function FormatTokenCount(n: int, fmt: OneDecimal): (r: string)
    ensures n < 1000 ==> r == IntToString(n)
    ensures 1000 <= n < 1000000 ==> r == fmt(n as real / 1000.0) + "K"
    ensures n >= 1000000 ==> r == fmt(n as real / 1000000.0) + "M"
  {
    if n < 1000 then IntToString(n)
    else if n < 1000000 then fmt(n as real / 1000.0) + "K"
    else fmt(n as real / 1000000.0) + "M"
  }

  /** `bytes_to_human_readable`: "<n> B" below 1024, else KB, MB or GB with
      one decimal. */
  function BytesToHumanReadable(n: int, fmt: OneDecimal): (r: string)
    ensures n < 1024 ==> r == IntToString(n) + " B"
    ensures 1024 <= n < 1048576 ==> r == fmt(n as real / 1024.0) + " KB"
    ensures 1048576 <= n < 1073741824 ==> r == fmt(n as real / 1048576.0) + " MB"
    ensures n >= 1073741824 ==> r == fmt(n as real / 1073741824.0) + " GB"
  {
    if n < 1024 then IntToString(n) + " B"
    else if n < 1024 * 1024 then fmt(n as real / 1024.0) + " KB"
    else if n < 1024 * 1024 * 1024 then fmt(n as real / 1048576.0) + " MB"
    else fmt(n as real / 1073741824.0) + " GB"
  }

  /** The suffix tells the range: "K" exactly for thousands, "M" exactly
      for millions, and a digit for plain counts. */
  lemma {:induction false} TokenCountSuffix(n: int, fmt: OneDecimal)
    ensures var r := FormatTokenCount(n, fmt);
      && (r[|r| - 1] == 'K' <==> 1000 <= n < 1000000)
      && (r[|r| - 1] == 'M' <==> n >= 1000000)
  {
  }

  /** The unit tells the range: " B", "KB", "MB" or "GB" end the text
      exactly in the byte, kilobyte, megabyte and gigabyte ranges. */
  lemma {:induction false} ByteUnitSuffix(n: int, fmt: OneDecimal)
    ensures var r := BytesToHumanReadable(n, fmt);
      && |r| >= 2
      && (r[|r| - 2..] == " B" <==> n < 1024)
      && (r[|r| - 2..] == "KB" <==> 1024 <= n < 1048576)
      && (r[|r| - 2..] == "MB" <==> 1048576 <= n < 1073741824)
      && (r[|r| - 2..] == "GB" <==> n >= 1073741824)
  {
    var r := BytesToHumanReadable(n, fmt);
    var head := if n < 1024 then IntToString(n) else if n < 1048576 then fmt(n as real / 1024.0) + " "
      else if n < 1073741824 then fmt(n as real / 1048576.0) + " " else fmt(n as real / 1073741824.0) + " ";
    var unit := if n < 1024 then " B" else if n < 1048576 then "KB" else if n < 1073741824 then "MB" else "GB";
    assert r == head + unit;
    assert r[|r| - 2..] == unit;
  }

  /** `estimate_tokens`: about four characters per token, 0 for "". */
  function EstimateTokens(text: string): (r: nat)
    ensures 4 * r <= |text| < 4 * r + 4
    ensures text == "" ==> r == 0
  {
    if text == "" then 0 else |text| / 4
  }

  /** The estimate never decreases as text is appended. */
  lemma {:induction false} EstimateTokensMonotone(a: string, b: string)
    ensures EstimateTokens(a) <= EstimateTokens(a + b)
  {
  }

  // ---------------------------------------------------------------------
  // get_metadata
  // ---------------------------------------------------------------------

  /** The entry one line of a key-value metadata file contributes: the
      stripped line, unless blank or a '#' comment, split at its first ':',
      with key and value stripped; a line without ':' contributes none. */
  function MetaEntry(line: string): Option<(string, string)>
  {
    var t := Strip(line);
    if t == "" || t[0] == '#' || ':' !in t then None
    else
      var i := IndexOf(t, ':');
      Some((Strip(t[..i]), Strip(t[i + 1..])))
  }

  /** The dictionary after the given entries, in order: a later key
      overwrites an earlier one. */
  function Fold(es: seq<Option<(string, string)>>): map<string, string>
  {
    if es == [] then map[]
    else
      var m := Fold(es[..|es| - 1]);
      var e := es[|es| - 1];
      if e.Some? then m[e.value.0 := e.value.1] else m
  }

  /** The dictionary after the given lines. */
  function Metadata(lines: seq<string>): map<string, string>
  {
    Fold(MapSeq(MetaEntry, lines))
  }

  /** One line of the loop: the entry it contributes, if any. */
  method ParseLine(raw: string) returns (e: Option<(string, string)>)
    ensures e == MetaEntry(raw)
  {
    var line := Strip(raw);
    e := None;
    if line != "" && line[0] != '#' {
      if ':' in line {
        var i := IndexOf(line, ':');
        var key, value := line[..i], line[i + 1..];
        e := Some((Strip(key), Strip(value)));
      }
    }
  }

  /** The loop over the file's lines. */
  method ParseMetadataLines(lines: seq<string>) returns (metadata: map<string, string>)
    ensures metadata == Metadata(lines)
  {
    metadata := map[];
    for k := 0 to |lines|
      invariant metadata == Metadata(lines[..k])
    {
      MetadataStep(lines, k);
      var e := ParseLine(lines[k]);
      if e.Some? {
        metadata := metadata[e.value.0 := e.value.1];
      }
    }
    assert lines[..|lines|] == lines;
  }

  /** The dictionary after one more line. */
  lemma {:induction false} MetadataStep(lines: seq<string>, k: nat)
    requires k < |lines|
    ensures var e := MetaEntry(lines[k]);
      Metadata(lines[..k + 1]) == if e.Some? then Metadata(lines[..k])[e.value.0 := e.value.1] else Metadata(lines[..k])
  {
    var a := MapSeq(MetaEntry, lines[..k]);
    var es := MapSeq(MetaEntry, lines[..k + 1]);
    assert |es| == k + 1 && es[k] == MetaEntry(lines[k]);
    assert forall i :: 0 <= i < k ==> es[i] == a[i];
    assert es[..|es| - 1] == a;
  }

  /** A key is present exactly when some entry carries it, and its value is
      that of the last such entry. */
  lemma {:induction false} FoldLastWins(es: seq<Option<(string, string)>>, key: string)
    ensures key in Fold(es) <==> exists i :: 0 <= i < |es| && es[i].Some? && es[i].value.0 == key
    ensures forall i :: 0 <= i < |es| && es[i].Some? && es[i].value.0 == key
                        && (forall j :: i < j < |es| ==> es[j].None? || es[j].value.0 != key) ==>
              key in Fold(es) && Fold(es)[key] == es[i].value.1
    decreases |es|
  {
    if es != [] {
      var init := es[..|es| - 1];
      FoldLastWins(init, key);
      assert forall i :: 0 <= i < |init| ==> init[i] == es[i];
      var e := es[|es| - 1];
      if key in Fold(es) && !(e.Some? && e.value.0 == key) {
        var i :| 0 <= i < |init| && init[i].Some? && init[i].value.0 == key;
        assert es[i] == init[i];
      }
    }
  }

  lemma {:induction false} MetadataLastWins(lines: seq<string>, key: string)
    ensures key in Metadata(lines) <==> exists i :: 0 <= i < |lines| && MetaEntry(lines[i]).Some? && MetaEntry(lines[i]).value.0 == key
    ensures forall i :: 0 <= i < |lines| && MetaEntry(lines[i]).Some? && MetaEntry(lines[i]).value.0 == key
                        && (forall j :: i < j < |lines| ==> MetaEntry(lines[j]).None? || MetaEntry(lines[j]).value.0 != key) ==>
              key in Metadata(lines) && Metadata(lines)[key] == MetaEntry(lines[i]).value.1
  {
    FoldLastWins(MapSeq(MetaEntry, lines), key);
  }

  /** An entry-less item, anywhere, changes nothing. */
  lemma {:induction false} FoldSkipsNone(a: seq<Option<(string, string)>>, b: seq<Option<(string, string)>>)
    ensures Fold(a + [None] + b) == Fold(a + b)
    decreases |b|
  {
    if b == [] {
      assert (a + [None] + b)[..|a|] == a;
      assert a + b == a;
    } else {
      var b' := b[..|b| - 1];
      assert (a + [None] + b)[..|a + [None] + b| - 1] == a + [None] + b';
      assert (a + b)[..|a + b| - 1] == a + b';
      FoldSkipsNone(a, b');
    }
  }

  /** Comment and blank lines, anywhere, change nothing. */
  lemma {:induction false} MetadataSkipsComments(a: seq<string>, line: string, b: seq<string>)
    requires Strip(line) == "" || Strip(line)[0] == '#'
    ensures Metadata(a + [line] + b) == Metadata(a + b)
  {
    assert MetaEntry(line) == None;
    var ma, mb := MapSeq(MetaEntry, a), MapSeq(MetaEntry, b);
    MapSeqConcat(MetaEntry, a + [line], b);
    MapSeqConcat(MetaEntry, a, [line]);
    MapSeqConcat(MetaEntry, a, b);
    assert MapSeq(MetaEntry, [line]) == [None];
    assert MapSeq(MetaEntry, a + [line] + b) == ma + [None] + mb;
    FoldSkipsNone(ma, mb);
  }

  lemma {:induction false} MapSeqConcat<A, B>(f: A -> B, a: seq<A>, b: seq<A>)
    ensures MapSeq(f, a + b) == MapSeq(f, a) + MapSeq(f, b)
  {
  }

  /** `get_metadata`: {} for a missing file; for a ".json" name what
      json.load returns, or {} when it raises; otherwise the entries of the
      lines read. The lines are those read before the end of the file or
      before a read error, since the dictionary filled so far is returned
      either way. */
  function GetMetadata(metaFile: string, present: bool, jsonLoad: Option<Json>, lines: seq<string>): (r: Json)
    ensures !present ==> r == JObj(map[])
    ensures present && EndsWith(metaFile, ".json") ==> r == (if jsonLoad.Some? then jsonLoad.value else JObj(map[]))
    ensures present && !EndsWith(metaFile, ".json") ==>
      r.JObj? && r.fields.Keys == Metadata(lines).Keys
      && forall k :: k in r.fields ==> r.fields[k] == JStr(Metadata(lines)[k])
  {
    if !present then JObj(map[])
    else if EndsWith(metaFile, ".json") then (if jsonLoad.Some? then jsonLoad.value else JObj(map[]))
    else
      var m := Metadata(lines);
      JObj(map k | k in m :: JStr(m[k]))
  }

  // ---------------------------------------------------------------------
  // sanitize_filename
  // ---------------------------------------------------------------------

  const MaxName := 255

  /** Characters `[\w\-.]` keeps. */
  predicate Allowed(c: char)
  {
    IsWordChar(c) || c == '-' || c == '.'
  }

  /** `re.sub(r'[^\w\-.]', '_', name)`. */
  function Replaced(name: string): (r: string)
    ensures |r| == |name|
    ensures forall i :: 0 <= i < |r| ==> Allowed(r[i])
    ensures forall i :: 0 <= i < |r| ==> (Allowed(name[i]) ==> r[i] == name[i]) && (!Allowed(name[i]) ==> r[i] == '_')
  {
    if name == [] then []
    else [if Allowed(name[0]) then name[0] else '_'] + Replaced(name[1..])
  }

  /** Every character already allowed: replacing is the identity. */
  lemma {:induction false} ReplacedIdempotent(name: string)
    ensures Replaced(Replaced(name)) == Replaced(name)
  {
    var r := Replaced(name);
    assert Replaced(r) == r;
  }

  /** The last '.' of s, when one exists. */
  function LastDot(s: string): (r: Option<nat>)
    ensures r.Some? ==> r.value < |s| && s[r.value] == '.' && '.' !in s[r.value + 1..]
    ensures r.None? ==> '.' !in s
  {
    if s == [] then None
    else if s[|s| - 1] == '.' then Some(|s| - 1)
    else
      var r := LastDot(s[..|s| - 1]);
      assert s[..|s| - 1] + [s[|s| - 1]] == s;
      if r.Some? then
        assert s[r.value + 1..] == s[..|s| - 1][r.value + 1..] + [s[|s| - 1]];
        r
      else r
  }

  /** `os.path.splitext` for a name without path separators: the extension
      starts at the last '.', provided some character before it is not a
      '.' (so ".bashrc" and "..x" have none). */
  function ExtStart(s: string): (r: nat)
    ensures r <= |s|
    ensures r < |s| ==> s[r] == '.' && '.' !in s[r + 1..] && exists i :: 0 <= i < r && s[i] != '.'
  {
    var d := LastDot(s);
    if d.Some? && exists i :: 0 <= i < d.value && s[i] != '.' then d.value else |s|
  }

  /** `sanitize_filename` as written: a name longer than 255 keeps its
      extension and the first `255 - len(ext)` characters of its base;
      with an extension longer than 255 that bound is negative and counts
      from the end of the base instead. */
  function SanitizeFilenameAsWritten(name: string): string
  {
    var s := Replaced(name);
    if |s| <= MaxName then s
    else
      var e := ExtStart(s);
      PyTake(s[..e], MaxName - (|s| - e)) + s[e..]
  }

  /** "a." followed by 300 'x's: its extension is 301 characters long, the
      base bound 255 - 301 is negative, and the sanitised name is the whole
      301-character extension, over the 255 the function sets out to keep to. */
  lemma {:induction false} SanitizeLongExtension()
    ensures var name := "a." + seq(300, i => 'x');
      |SanitizeFilenameAsWritten(name)| == 301
  {
    var name := "a." + seq(300, i => 'x');
    var s := Replaced(name);
    assert s == name;
    var d := LastDot(s);
    assert s[1] == '.' && '.' !in s[2..];
    assert d == Some(1);
    assert s[0] != '.';
    assert ExtStart(s) == 1;
  }

  /** `sanitize_filename` as its comment intends: never longer than 255,
      the extension kept whenever it fits. */
  function SanitizeFilename(name: string): string
  {
    var s := Replaced(name);
    if |s| <= MaxName then s
    else
      var e := ExtStart(s);
      if |s| - e <= MaxName then s[..MaxName - (|s| - e)] + s[e..]
      else s[..MaxName]
  }

  /** The sanitised name has only allowed characters and at most 255 of
      them; a short name keeps its length and every allowed character; a
      long one keeps its extension when that fits, after a prefix of its
      base. */
  lemma {:induction false} SanitizeFilenameBounds(name: string)
    ensures var r := SanitizeFilename(name);
      && |r| <= MaxName
      && (forall i :: 0 <= i < |r| ==> Allowed(r[i]))
      && (|name| <= MaxName ==> r == Replaced(name))
      && (|name| > MaxName ==> |r| == MaxName)
      && (|name| > MaxName && |name| - ExtStart(Replaced(name)) <= MaxName ==>
            var s := Replaced(name); var e := ExtStart(s);
            r == s[..MaxName - (|s| - e)] + s[e..])
  {
  }

  /** Where the extension fits, the corrected function and the one as
      written agree. */
  lemma {:induction false} SanitizeAgreesWhenExtensionFits(name: string)
    requires |Replaced(name)| - ExtStart(Replaced(name)) <= MaxName
    ensures SanitizeFilename(name) == SanitizeFilenameAsWritten(name)
  {
    var s := Replaced(name);
    if |s| > MaxName {
      var e := ExtStart(s);
      var n := MaxName - (|s| - e);
      assert SanitizeFilename(name) == s[..n] + s[e..];
      TakeOfBase(s, e, n);
    }
  }

  /** A base bound within the base takes a prefix of the whole name. */
  lemma {:induction false} TakeOfBase(s: string, e: nat, n: int)
    requires 0 <= n <= e <= |s|
    ensures PyTake(s[..e], n) + s[e..] == s[..n] + s[e..]
  {
    assert PyTake(s[..e], n) == s[..n];
  }
}
