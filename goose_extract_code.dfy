/** Goose Tools' code extractor (goose_tools/scripts/extract_code.py): the
    language of a file from its extension, and the line filters that pick
    out imports, definitions, comments and a sample of a file. The regular
    expressions each language uses are a parameter `matches(pattern, line)`
    standing for `re.match`. */
module GooseExtractCode {
  import opened Base
  import GooseFileUtils

  // ---------------------------------------------------------------------
  // detect_language
  // ---------------------------------------------------------------------

  /** The position just after the last '/', or 0. */
  function BaseStart(path: string): (r: nat)
    ensures r <= |path|
    ensures r > 0 ==> path[r - 1] == '/'
    ensures forall i :: r <= i < |path| ==> path[i] != '/'
  {
    if path == [] then 0
    else if path[|path| - 1] == '/' then |path|
    else BaseStart(path[..|path| - 1])
  }

  /** `os.path.splitext(path)[1]`: the extension of the last path
      component. */
  function Extension(path: string): (r: string)
    ensures r == [] || (r[0] == '.' && '/' !in r)
  {
    var name := path[BaseStart(path)..];
    name[GooseFileUtils.ExtStart(name)..]
  }

  const LanguageMap: map<string, string> := map[
    ".py" := "python", ".js" := "javascript", ".ts" := "typescript", ".tsx" := "typescript",
    ".jsx" := "javascript", ".java" := "java", ".c" := "c", ".cpp" := "cpp", ".cc" := "cpp",
    ".h" := "c", ".hpp" := "cpp", ".cs" := "csharp", ".go" := "go", ".rb" := "ruby",
    ".php" := "php", ".rs" := "rust", ".swift" := "swift", ".kt" := "kotlin", ".scala" := "scala",
    ".m" := "objective-c", ".mm" := "objective-c", ".pl" := "perl", ".sh" := "bash",
    ".bash" := "bash", ".r" := "r", ".json" := "json", ".xml" := "xml", ".yaml" := "yaml",
    ".yml" := "yaml", ".sql" := "sql", ".html" := "html", ".css" := "css", ".scss" := "scss",
    ".sass" := "sass", ".less" := "less", ".md" := "markdown"]

  /** `detect_language`: the language of the lower-cased extension, or
      'text'. */
  function DetectLanguage(path: string): (r: string)
    ensures Lower(Extension(path)) in LanguageMap ==> r == LanguageMap[Lower(Extension(path))]
    ensures Lower(Extension(path)) !in LanguageMap ==> r == "text"
  {
    var ext := Lower(Extension(path));
    if ext in LanguageMap then LanguageMap[ext] else "text"
  }

  /** A file named only by an extension-like word, such as ".py", has no
      extension and is plain text. */
  lemma {:induction false} DotFileIsText()
    ensures DetectLanguage(".py") == "text"
  {
    assert BaseStart(".py") == 0;
    assert GooseFileUtils.LastDot(".py") == Some(0);
    assert GooseFileUtils.ExtStart(".py") == 3;
    assert Extension(".py") == "";
    assert Lower("") == "";
  }

  /** The path component after a '/' is what follows it. */
  lemma {:induction false} BaseStartAfterSlash(dir: string, name: string)
    requires dir != [] && dir[|dir| - 1] == '/' && '/' !in name
    ensures BaseStart(dir + name) == |dir|
    decreases |name|
  {
    if name == [] {
      assert dir + name == dir;
    } else {
      var init := name[..|name| - 1];
      BaseStartAfterSlash(dir, init);
      assert (dir + name)[..|dir + name| - 1] == dir + init;
    }
  }

  /** The last dot of stem + ext, when ext is a dot and dot-free text. */
  lemma {:induction false} LastDotOfExtension(stem: string, ext: string)
    requires ext != [] && ext[0] == '.' && '.' !in ext[1..]
    ensures GooseFileUtils.LastDot(stem + ext) == Some(|stem|)
    decreases |ext|
  {
    var s := stem + ext;
    if |ext| == 1 {
      assert s[|s| - 1] == '.';
    } else {
      var init := ext[..|ext| - 1];
      assert init[1..] == ext[1..][..|ext| - 2];
      LastDotOfExtension(stem, init);
      assert s[..|s| - 1] == stem + init;
      assert s[|s| - 1] == ext[1..][|ext| - 2];
    }
  }

  /** The extension of dir/stem.ext is .ext, when the stem has a character
      other than '.' and the extension has no other dot. */
  lemma {:induction false} ExtensionOf(dir: string, stem: string, ext: string)
    requires dir != [] && dir[|dir| - 1] == '/' && '/' !in stem && '/' !in ext
    requires ext != [] && ext[0] == '.' && '.' !in ext[1..]
    requires exists i :: 0 <= i < |stem| && stem[i] != '.'
    ensures Extension(dir + stem + ext) == ext
  {
    var path := dir + stem + ext;
    var name := stem + ext;
    assert path == dir + name;
    assert BaseStart(path) == |dir| by {
      NoSlashInConcat(stem, ext);
      BaseStartAfterSlash(dir, name);
    }
    assert path[|dir|..] == name;
    assert GooseFileUtils.ExtStart(name) == |stem| by {
      LastDotOfExtension(stem, ext);
      var i :| 0 <= i < |stem| && stem[i] != '.';
      assert name[i] != '.';
      ExtStartAt(name, |stem|, i);
    }
    assert name[|stem|..] == ext;
  }

  lemma {:induction false} NoSlashInConcat(a: string, b: string)
    requires '/' !in a && '/' !in b
    ensures '/' !in a + b
  {
    forall i | 0 <= i < |a + b|
      ensures (a + b)[i] != '/'
    {
      if i < |a| {
        assert (a + b)[i] == a[i];
      } else {
        assert (a + b)[i] == b[i - |a|];
      }
    }
  }

  lemma {:induction false} ExtStartAt(name: string, k: nat, i: nat)
    requires GooseFileUtils.LastDot(name) == Some(k)
    requires i < k && name[i] != '.'
    ensures GooseFileUtils.ExtStart(name) == k
  {
  }

  /** The extension is read case-insensitively, after the last '/'. */
  lemma {:induction false} DetectUpperCasePython()
    ensures DetectLanguage("src.d/app.PY") == "python"
  {
    assert "src.d/app.PY" == "src.d/" + "app" + ".PY";
    assert "app"[0] != '.';
    assert ".PY"[1..] == "PY";
    ExtensionOf("src.d/", "app", ".PY");
    LowerPY();
    PythonEntry();
  }

  lemma {:induction false} LowerPY()
    ensures Lower(".PY") == ".py"
  {
    assert Lower(".PY") == [LowerChar('.')] + Lower("PY");
    assert Lower("PY") == [LowerChar('P')] + Lower("Y");
  }

  lemma {:induction false} PythonEntry()
    ensures ".py" in LanguageMap && LanguageMap[".py"] == "python"
  {
  }

  // ---------------------------------------------------------------------
  // Line filters
  // ---------------------------------------------------------------------

  /** The lines satisfying p, in order. */
  function Filter(p: string -> bool, xs: seq<string>): (r: seq<string>)
    ensures |r| <= |xs|
    ensures forall k :: 0 <= k < |r| ==> p(r[k]) && r[k] in xs
  {
    if xs == [] then [] else Filter(p, xs[..|xs| - 1]) + (if p(xs[|xs| - 1]) then [xs[|xs| - 1]] else [])
  }

  /** Every line satisfying p is kept. */
  lemma {:induction false} FilterKeepsAll(p: string -> bool, xs: seq<string>)
    ensures forall k :: 0 <= k < |xs| && p(xs[k]) ==> xs[k] in Filter(p, xs)
    decreases |xs|
  {
    if xs != [] {
      FilterKeepsAll(p, xs[..|xs| - 1]);
      forall k | 0 <= k < |xs| - 1 && p(xs[k])
        ensures xs[k] in Filter(p, xs)
      {
        assert xs[..|xs| - 1][k] == xs[k];
      }
    }
  }

  /** Filtering distributes over concatenation: the order of the lines is
      kept. */
  lemma {:induction false} FilterAppend(p: string -> bool, a: seq<string>, b: seq<string>)
    ensures Filter(p, a + b) == Filter(p, a) + Filter(p, b)
    decreases |b|
  {
    if b == [] {
      assert a + b == a;
    } else {
      FilterAppend(p, a, b[..|b| - 1]);
      assert (a + b)[..|a + b| - 1] == a + b[..|b| - 1];
    }
  }

  /** The pattern `extract_imports` uses for a language. */
  function ImportPattern(language: string): string
  {
    if language == "python" then "^\\s*(import|from)\\s+.+"
    else if language == "javascript" || language == "typescript" then "^\\s*(import|require).+"
    else if language == "java" || language == "go" then "^\\s*(import|package)\\s+.+"
    else if language == "rust" then "^\\s*(use|extern\\s+crate)\\s+.+"
    else "^\\s*(import|include|require|use|#include)"
  }

  /** `extract_imports`: the loop keeping the lines the pattern matches. */
  method ExtractImports(content: string, language: string, matches: (string, string) -> bool) returns (imports: seq<string>)
    ensures imports == Filter(line => matches(ImportPattern(language), line), Lines(content))
  {
    var pattern := ImportPattern(language);
    var lines := Lines(content);
    imports := [];
    for k := 0 to |lines|
      invariant imports == Filter(line => matches(pattern, line), lines[..k])
    {
      assert lines[..k + 1][..k] == lines[..k];
      if matches(pattern, lines[k]) {
        imports := imports + [lines[k]];
      }
    }
    assert lines[..|lines|] == lines;
  }

  // ---------------------------------------------------------------------
  // extract_functions
  // ---------------------------------------------------------------------

  /** The pattern `extract_functions` uses: the caller's when given, else
      the language's. */
  function FunctionPattern(language: string, pattern: Option<string>): string
  {
    if pattern.Some? && pattern.value != "" then pattern.value
    else if language == "python" then "^\\s*(def|class)\\s+\\w+.*:"
    else if language == "javascript" then "^\\s*(function|class|const\\s+\\w+\\s*=\\s*(\\(\\)|function|async|.*=>))"
    else if language == "typescript" then "^\\s*(function|class|interface|const\\s+\\w+\\s*=\\s*(\\(\\)|function|async|.*=>))"
    else if language == "java" then "^\\s*(public|private|protected|static|final)?\\s*\\w+(\\s+\\w+)*\\s+\\w+\\s*\\(.*\\)\\s*\\{?"
    else if language == "rust" then "^\\s*(pub|fn|struct|enum|impl|trait)\\s+\\w+.*"
    else if language == "go" then "^\\s*(func|type)\\s+\\w+.*"
    else "^\\s*\\w+\\s+\\w+\\s*\\("
  }

  /** How many times c occurs in s. */
  function CountChar(s: string, c: char): nat
  {
    if s == [] then 0 else CountChar(s[..|s| - 1], c) + (if s[|s| - 1] == c then 1 else 0)
  }

  /** The loop state of `extract_functions` (func_start is written but never
      read, and is left out). */
  datatype FState = FState(inFunction: bool, braceCount: int, out: seq<string>)

  /** Line i of the file: a definition is kept (and, for full functions,
      opens a body); inside a body every line is kept until a Python line
      followed by an unindented one, or a line with '}' that closes the
      braces, ends it with a blank separator. */
  function FunctionStep(lines: seq<string>, i: nat, st: FState, language: string, full: bool, isDef: string -> bool): FState
    requires i < |lines|
  {
    var line := lines[i];
    if isDef(line) then
      if full then FState(true, CountChar(line, '{') - CountChar(line, '}'), st.out + [line])
      else st.(out := st.out + [line])
    else if full && st.inFunction then
      var bc := st.braceCount + CountChar(line, '{') - CountChar(line, '}');
      var out := st.out + [line];
      if language == "python" then
        if i + 1 < |lines| && !StartsWith(lines[i + 1], " ") && line != "" then FState(false, bc, out + [""])
        else FState(true, bc, out)
      else if bc <= 0 && '}' in line then FState(false, bc, out + [""])
      else FState(true, bc, out)
    else st
  }

  /** The state after the first k lines. */
  function FunctionsUpTo(lines: seq<string>, k: nat, language: string, full: bool, isDef: string -> bool): FState
    requires k <= |lines|
  {
    if k == 0 then FState(false, 0, [])
    else FunctionStep(lines, k - 1, FunctionsUpTo(lines, k - 1, language, full, isDef), language, full, isDef)
  }

  /** `extract_functions` as a function of the file's lines. */
  function Functions(lines: seq<string>, language: string, full: bool, isDef: string -> bool): seq<string>
  {
    FunctionsUpTo(lines, |lines|, language, full, isDef).out
  }

  /** `extract_functions`: the loop over the numbered lines. */
  method ExtractFunctions(content: string, language: string, full: bool, pattern: Option<string>, matches: (string, string) -> bool)
    returns (functions: seq<string>)
    ensures functions == Functions(Lines(content), language, full, line => matches(FunctionPattern(language, pattern), line))
  {
    var lines := Lines(content);
    var patternStr := FunctionPattern(language, pattern);
    ghost var isDef := line => matches(patternStr, line);
    functions := [];
    var inFunction := false;
    var braceCount := 0;
    for i := 0 to |lines|
      invariant FunctionsUpTo(lines, i, language, full, isDef) == FState(inFunction, braceCount, functions)
    {
      var line := lines[i];
      if matches(patternStr, line) {
        if full {
          inFunction := true;
          braceCount := CountChar(line, '{') - CountChar(line, '}');
          functions := functions + [line];
        } else {
          functions := functions + [line];
        }
      } else if full && inFunction {
        braceCount := braceCount + CountChar(line, '{') - CountChar(line, '}');
        functions := functions + [line];
        if language == "python" {
          if i + 1 < |lines| && !StartsWith(lines[i + 1], " ") && line != "" {
            inFunction := false;
            functions := functions + [""];
          }
        } else if braceCount <= 0 && '}' in line {
          inFunction := false;
          functions := functions + [""];
        }
      }
    }
  }

  /** Without full bodies, the definitions are exactly the matching lines,
      in order. */
  lemma {:induction false} DefinitionsOnly(lines: seq<string>, k: nat, language: string, isDef: string -> bool)
    requires k <= |lines|
    ensures FunctionsUpTo(lines, k, language, false, isDef).out == Filter(isDef, lines[..k])
    decreases k
  {
    if k > 0 {
      DefinitionsOnly(lines, k - 1, language, isDef);
      assert lines[..k][..k - 1] == lines[..k - 1];
    }
  }

  /** One step adds nothing, the line, or the line and a blank separator. */
  lemma {:induction false} FunctionStepAdds(lines: seq<string>, i: nat, st: FState, language: string, isDef: string -> bool)
    requires i < |lines|
    ensures var out := FunctionStep(lines, i, st, language, true, isDef).out;
      out == st.out || out == st.out + [lines[i]] || out == st.out + [lines[i], ""]
  {
  }

  /** With full bodies, every line of the output is a line of the file or
      the blank separator. */
  lemma {:induction false} FullFunctionsFromFile(lines: seq<string>, k: nat, language: string, isDef: string -> bool)
    requires k <= |lines|
    ensures forall j :: 0 <= j < |FunctionsUpTo(lines, k, language, true, isDef).out| ==>
      FunctionsUpTo(lines, k, language, true, isDef).out[j] in lines[..k] ||
      FunctionsUpTo(lines, k, language, true, isDef).out[j] == ""
    decreases k
  {
    if k > 0 {
      FullFunctionsFromFile(lines, k - 1, language, isDef);
      var prev := FunctionsUpTo(lines, k - 1, language, true, isDef);
      FunctionStepAdds(lines, k - 1, prev, language, isDef);
      var out := FunctionsUpTo(lines, k, language, true, isDef).out;
      assert FunctionsUpTo(lines, k, language, true, isDef) == FunctionStep(lines, k - 1, prev, language, true, isDef);
      forall j | 0 <= j < |out|
        ensures out[j] in lines[..k] || out[j] == ""
      {
        if j < |prev.out| {
          assert out[j] == prev.out[j];
          assert prev.out[j] in lines[..k - 1] || prev.out[j] == "";
          assert lines[..k] == lines[..k - 1] + [lines[k - 1]];
        } else {
          assert out[j] == lines[k - 1] || out[j] == "";
        }
      }
    }
  }

  /** With full bodies, the definition lines of the output are exactly
      those of the file, in order (when a blank line is not a definition). */
  lemma {:induction false} FullFunctionsDefinitions(lines: seq<string>, k: nat, language: string, isDef: string -> bool)
    requires k <= |lines| && !isDef("")
    ensures Filter(isDef, FunctionsUpTo(lines, k, language, true, isDef).out) == Filter(isDef, lines[..k])
    decreases k
  {
    if k > 0 {
      FullFunctionsDefinitions(lines, k - 1, language, isDef);
      var prev := FunctionsUpTo(lines, k - 1, language, true, isDef);
      var line := lines[k - 1];
      FunctionStepAdds(lines, k - 1, prev, language, isDef);
      var out := FunctionsUpTo(lines, k, language, true, isDef).out;
      assert lines[..k] == lines[..k - 1] + [line];
      FilterAppend(isDef, lines[..k - 1], [line]);
      assert [line][..0] == [];
      if out == prev.out + [line, ""] {
        FilterAppend(isDef, prev.out, [line, ""]);
        assert [line, ""][..1] == [line];
      } else if out == prev.out + [line] {
        FilterAppend(isDef, prev.out, [line]);
      } else {
        assert !isDef(line);
      }
    }
  }

  // ---------------------------------------------------------------------
  // extract_comments
  // ---------------------------------------------------------------------

  /** The two-character string [a, b] occurs in line (Python's `in`). */
  predicate HasPair(line: string, a: char, b: char)
  {
    |line| >= 2 && ((line[0] == a && line[1] == b) || HasPair(line[1..], a, b))
  }

  lemma {:induction false} HasPairAt(line: string, i: nat, a: char, b: char)
    requires i + 1 < |line| && line[i] == a && line[i + 1] == b
    ensures HasPair(line, a, b)
    decreases i
  {
    if i > 0 {
      HasPairAt(line[1..], i - 1, a, b);
    }
  }

  /** The line holds a slash followed by a star, which opens a block
      comment (the source also tests for slash-star-star, which implies it). */
  predicate Opens(line: string) { HasPair(line, '/', '*') }

  /** The line holds a star followed by a slash, which closes a block
      comment. */
  predicate Closes(line: string) { HasPair(line, '*', '/') }

  /** The pattern `extract_comments` uses for a language. */
  function CommentPattern(language: string): string
  {
    if language == "python" then "^\\s*#\\s*(?!.*?\\bignore\\b|.*?\\blint\\b).*"
    else if language == "javascript" || language == "typescript" then "^\\s*(//|/\\*\\*?)\\s*(?!.*?\\bignore\\b|.*?\\beslint\\b).*"
    else if language == "java" then "^\\s*(//|/\\*\\*?)\\s*(?!.*?\\bignore\\b).*"
    else if language == "rust" || language == "go" then "^\\s*(//|/\\*)\\s*(?!.*?\\bignore\\b).*"
    else "^\\s*(//|#|/\\*)"
  }

  /** The loop state of `extract_comments`. */
  datatype CState = CState(inMultiline: bool, out: seq<string>)

  /** One line of `extract_comments` as written: a line that is not a
      comment but opens a block starts one even when the same line closes
      it. */
  function CommentStepAsWritten(st: CState, line: string, isComment: string -> bool): CState
  {
    if st.inMultiline then
      if Closes(line) then CState(false, st.out + [line, ""]) else CState(true, st.out + [line])
    else if isComment(line) then CState(Opens(line) && !Closes(line), st.out + [line])
    else if Opens(line) then CState(true, st.out + [line])
    else st
  }

  /** One line of `extract_comments` as intended: a block opened and closed
      on the same line does not swallow the lines after it. */
  function CommentStep(st: CState, line: string, isComment: string -> bool): CState
  {
    if st.inMultiline then
      if Closes(line) then CState(false, st.out + [line, ""]) else CState(true, st.out + [line])
    else if isComment(line) then CState(Opens(line) && !Closes(line), st.out + [line])
    else if Opens(line) then CState(!Closes(line), st.out + [line])
    else st
  }

  function CommentsAsWritten(lines: seq<string>, isComment: string -> bool): CState
  {
    if lines == [] then CState(false, [])
    else CommentStepAsWritten(CommentsAsWritten(lines[..|lines| - 1], isComment), lines[|lines| - 1], isComment)
  }

  /** The state after the lines, as intended. */
  function Comments(lines: seq<string>, isComment: string -> bool): CState
  {
    if lines == [] then CState(false, [])
    else CommentStep(Comments(lines[..|lines| - 1], isComment), lines[|lines| - 1], isComment)
  }

  /** `extract_comments`, with the same-line block corrected: the loop over
      the lines. */
  method ExtractComments(content: string, language: string, matches: (string, string) -> bool) returns (comments: seq<string>)
    ensures comments == Comments(Lines(content), line => matches(CommentPattern(language), line)).out
  {
    var pattern := CommentPattern(language);
    ghost var isComment := line => matches(pattern, line);
    var lines := Lines(content);
    comments := [];
    var inMultiline := false;
    for k := 0 to |lines|
      invariant Comments(lines[..k], isComment) == CState(inMultiline, comments)
    {
      assert lines[..k + 1][..k] == lines[..k];
      var line := lines[k];
      ghost var before := CState(inMultiline, comments);
      assert Comments(lines[..k + 1], isComment) == CommentStep(before, line, isComment);
      assert isComment(line) == matches(pattern, line);
      if inMultiline {
        comments := comments + [line];
        if Closes(line) {
          inMultiline := false;
          comments := comments + [""];
          assert comments == before.out + [line, ""];
        }
      } else if matches(pattern, line) {
        if Opens(line) && !Closes(line) {
          inMultiline := true;
        }
        comments := comments + [line];
      } else if Opens(line) {
        inMultiline := !Closes(line);
        comments := comments + [line];
      }
      assert CState(inMultiline, comments) == CommentStep(before, line, isComment);
    }
    assert lines[..|lines|] == lines;
  }

  /** Reference for the block state: some line after the last closing one
      opens a block. */
  predicate Unclosed(lines: seq<string>)
  {
    lines != [] && !Closes(lines[|lines| - 1]) && (Opens(lines[|lines| - 1]) || Unclosed(lines[..|lines| - 1]))
  }

  /** The loop is inside a block comment exactly when some line after the
      last closing line opened one. */
  lemma {:induction false} CommentsInBlock(lines: seq<string>, isComment: string -> bool)
    ensures Comments(lines, isComment).inMultiline <==> Unclosed(lines)
    decreases |lines|
  {
    if lines != [] {
      CommentsInBlock(lines[..|lines| - 1], isComment);
    }
  }

  /** When no line opens a block, the comments are exactly the lines the pattern
      matches, in order. */
  lemma {:induction false} CommentsWithoutBlocks(lines: seq<string>, isComment: string -> bool)
    requires forall k :: 0 <= k < |lines| ==> !Opens(lines[k])
    ensures Comments(lines, isComment) == CState(false, Filter(isComment, lines))
    decreases |lines|
  {
    if lines != [] {
      CommentsWithoutBlocks(lines[..|lines| - 1], isComment);
    }
  }

  /** Every output line is a line of the file or the blank separator, and
      every line the pattern matches is kept. */
  lemma {:induction false} CommentsFromFile(lines: seq<string>, isComment: string -> bool)
    ensures forall j :: 0 <= j < |Comments(lines, isComment).out| ==>
      Comments(lines, isComment).out[j] in lines || Comments(lines, isComment).out[j] == ""
    ensures forall k :: 0 <= k < |lines| && isComment(lines[k]) ==> lines[k] in Comments(lines, isComment).out
    decreases |lines|
  {
    if lines != [] {
      var prefix := lines[..|lines| - 1];
      var line := lines[|lines| - 1];
      CommentsFromFile(prefix, isComment);
      var prev := Comments(prefix, isComment);
      var out := Comments(lines, isComment).out;
      assert lines == prefix + [line];
      assert out == prev.out || out == prev.out + [line] || out == prev.out + [line, ""];
      assert isComment(line) ==> out[|prev.out|] == line;
      forall j | 0 <= j < |out|
        ensures out[j] in lines || out[j] == ""
      {
        if j < |prev.out| {
          assert out[j] == prev.out[j];
          assert prev.out[j] in prefix || prev.out[j] == "";
        } else {
          assert out[j] == line || out[j] == "";
        }
      }
      forall k | 0 <= k < |lines| && isComment(lines[k])
        ensures lines[k] in out
      {
        if k < |prefix| {
          assert prefix[k] == lines[k];
          var j :| 0 <= j < |prev.out| && prev.out[j] == lines[k];
          assert out[j] == lines[k];
        } else {
          assert out[|prev.out|] == lines[k];
        }
      }
    }
  }

  /** A code line that opens and closes a block, then any line. */
  lemma {:induction false} SameLineBlockSteps(first: string, next: string, isComment: string -> bool)
    requires !isComment(first) && Opens(first) && Closes(first)
    requires !Opens(next) && !Closes(next)
    ensures CommentsAsWritten([first, next], isComment).out == [first, next]
    ensures !isComment(next) ==> Comments([first, next], isComment).out == [first]
  {
    assert [first, next][..1] == [first];
    assert [first][..0] == [];
    assert CommentsAsWritten([first], isComment) == CState(true, [first]);
    assert Comments([first], isComment) == CState(false, [first]);
  }

  /** As written, a code line ending in a one-line block comment starts a
      block that is never closed, so the next line is copied as a comment;
      as intended, only the first line is kept. */
  lemma {:induction false} SameLineBlockAsWritten(isComment: string -> bool)
    requires !isComment("a(); /* b */") && !isComment("c")
    ensures CommentsAsWritten(["a(); /* b */", "c"], isComment).out == ["a(); /* b */", "c"]
    ensures Comments(["a(); /* b */", "c"], isComment).out == ["a(); /* b */"]
  {
    HasPairAt("a(); /* b */", 5, '/', '*');
    HasPairAt("a(); /* b */", 10, '*', '/');
    SameLineBlockSteps("a(); /* b */", "c", isComment);
  }

  // ---------------------------------------------------------------------
  // extract_sample_lines
  // ---------------------------------------------------------------------

  /** A Python slice bound: negative counts from the end, then clamped. */
  function SliceBound(n: int, len: nat): (r: nat)
    ensures r <= len
    ensures 0 <= n <= len ==> r == n
  {
    if n < 0 then Max(0, len + n) else Min(n, len)
  }

  /** Python's s[a:b]. */
  function PySlice<T>(s: seq<T>, a: int, b: int): (r: seq<T>)
    ensures 0 <= a <= b <= |s| ==> r == s[a..b]
  {
    var lo := SliceBound(a, |s|);
    var hi := SliceBound(b, |s|);
    if lo <= hi then s[lo..hi] else []
  }

  /** `extract_sample_lines` as written: the first third, "...", a middle
      third, "..." and `lines[-end_lines:]`, which is the whole file when
      end_lines is 0. Python's `//` by 3 and 2 is Dafny's `/`. */
  function SampleLinesAsWritten(lines: seq<string>, maxLines: int): seq<string>
  {
    var total := |lines|;
    if total <= maxLines then lines
    else
      var begin := maxLines / 3;
      var middle := maxLines / 3;
      var end := maxLines - begin - middle;
      var midStart := (total - middle) / 2;
      PyTake(lines, begin) + ["..."] + PySlice(lines, midStart, midStart + middle) + ["..."] + PyDrop(lines, -end)
  }

  /** `extract_sample_lines` as intended: an empty tail when end_lines is 0. */
  function SampleLines(lines: seq<string>, maxLines: int): seq<string>
  {
    var total := |lines|;
    if total <= maxLines then lines
    else
      var begin := maxLines / 3;
      var middle := maxLines / 3;
      var end := maxLines - begin - middle;
      var midStart := (total - middle) / 2;
      PyTake(lines, begin) + ["..."] + PySlice(lines, midStart, midStart + middle) + ["..."]
        + (if end == 0 then [] else PyDrop(lines, -end))
  }

  /** A file of at most max_lines lines is returned whole; a longer one
      gives max_lines lines and two markers: the first third, a centred
      middle third and the last lines, as windows of the file that do not
      overlap and keep its order. */
  lemma {:induction false} SampleLinesShape(lines: seq<string>, maxLines: int)
    requires maxLines >= 0
    ensures |lines| <= maxLines ==> SampleLines(lines, maxLines) == lines
    ensures |lines| > maxLines ==>
      var begin := maxLines / 3;
      var end := maxLines - 2 * begin;
      var midStart := (|lines| - begin) / 2;
      begin <= midStart && midStart + begin <= |lines| - end &&
      SampleLines(lines, maxLines) ==
        lines[..begin] + ["..."] + lines[midStart..midStart + begin] + ["..."] + lines[|lines| - end..]
    ensures |lines| > maxLines ==> |SampleLines(lines, maxLines)| == maxLines + 2
  {
    if |lines| > maxLines {
      var total := |lines|;
      var begin := maxLines / 3;
      var end := maxLines - 2 * begin;
      var midStart := (total - begin) / 2;
      SampleBounds(total, maxLines);
      assert PyTake(lines, begin) == lines[..begin];
      assert PySlice(lines, midStart, midStart + begin) == lines[midStart..midStart + begin];
      var tail := if end == 0 then [] else PyDrop(lines, -end);
      assert tail == lines[total - end..];
    }
  }

  /** The three windows of a long file fit in order. */
  lemma {:induction false} SampleBounds(total: nat, maxLines: nat)
    requires total > maxLines
    ensures var begin := maxLines / 3; var end := maxLines - 2 * begin; var midStart := (total - begin) / 2;
      0 <= end && maxLines - begin - begin == end && begin <= midStart && midStart + begin <= total - end
  {
  }

  /** As written, max_lines 0 gives the two markers and then the whole file. */
  lemma {:induction false} SampleZeroAsWritten(lines: seq<string>)
    requires lines != []
    ensures SampleLinesAsWritten(lines, 0) == ["...", "..."] + lines
    ensures |SampleLinesAsWritten(lines, 0)| == |lines| + 2
  {
    assert PyTake(lines, 0) == [];
    assert PyDrop(lines, 0) == lines;
  }

  /** As intended, max_lines 0 gives only the two markers. */
  lemma {:induction false} SampleZero(lines: seq<string>)
    requires lines != []
    ensures SampleLines(lines, 0) == ["...", "..."]
  {
    SampleLinesShape(lines, 0);
  }

  /** The two agree whenever end_lines is not 0, which for max_lines >= 0
      is every max_lines but 0. */
  lemma {:induction false} SampleAgrees(lines: seq<string>, maxLines: int)
    requires maxLines > 0
    ensures SampleLinesAsWritten(lines, maxLines) == SampleLines(lines, maxLines)
  {
  }
}
