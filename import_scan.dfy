/** The global regular expressions with which the dependency graph builder
    (src/components/CodeFlowVisualization.tsx, `parseFileContent`) pulls
    import specifiers and exported names out of a whole file.

    `re.exec(content)` on a `/g` expression finds the leftmost match at or
    after `re.lastIndex` and moves `lastIndex` to the end of that match; the
    `while ((match = re.exec(content)) !== null)` loops collect one capture
    per match. Each expression is written out as an explicit scan at one
    position (`MatchAt`); where the engine could backtrack, the scan takes the
    only path that can succeed (in every pattern here the alternatives start
    with different characters, and a greedy run given back would leave a
    character the next token cannot start with). */
module ImportScan {

  import opened Wrappers
  import opened Strings
  import LinePatterns

  /** The five expressions. */
  datatype ScanPattern =
    | ScriptImport   // import\s+(?:(?:\{[^}]*\}|\*\s+as\s+\w+|\w+)\s+from\s+)?['"]([^'"]+)['"]
    | ScriptExport   // export\s+(?:default\s+)?(?:class|function|const|let|var)\s+(\w+)
    | PythonImport   // (?:from\s+(\S+)\s+import|import\s+(\S+))
    | IncludeImport  // (?:import|#include)\s+[<"]([^>"]+)[>"]
    | GoImport       // import\s+(?:\([\s\S]*?\)|"([^"]+)")

  /** One match: the capture that the loop pushes (none for a Go import
      block, whose group does not take part) and where the match ends. */
  datatype Hit = Hit(capture: Option<string>, end: nat)

  // ---------------------------------------------------------------------------
  // The expressions at one position
  // ---------------------------------------------------------------------------

  /** `['"]([^'"]+)['"]` at `q`; the two quotes need not be the same. */
  function QuotedSpecifier(s: string, q: nat): (r: Option<Hit>)
    requires q <= |s|
    ensures r.Some? ==> q < r.value.end <= |s|
  {
    var a :- CharIn(s, q, {'\'', '"'});
    var b :- Run1(s, a, NotQuote);
    var c :- CharIn(s, b, {'\'', '"'});
    Some(Hit(Some(s[a..b]), c))
  }

  /** `(?:\{[^}]*\}|\*\s+as\s+\w+|\w+)\s+from\s+` at `k`: where the quoted
      specifier must start. */
  function ImportClause(s: string, k: nat): (r: Option<nat>)
    requires k <= |s|
    ensures r.Some? ==> k < r.value <= |s|
  {
    var c :-
      if k < |s| && s[k] == '{' then
        CharIn(s, RunEnd(s, k + 1, NotCloseBrace), {'}'})
      else if k < |s| && s[k] == '*' then
        var a :- Run1(s, k + 1, Space);
        var b :- Lit(s, a, "as");
        var d :- Run1(s, b, Space);
        Run1(s, d, Word)
      else
        Run1(s, k, Word);
    var n :- Run1(s, c, Space);
    var o :- Lit(s, n, "from");
    Run1(s, o, Space)
  }

  /** The script import at `i`. The optional clause is tried first; without
      it the specifier would have to start where the clause starts, which
      only a quote can do, and a quote cannot start the clause. */
  function ScriptImportAt(s: string, i: nat): (r: Option<Hit>)
    requires i <= |s|
    ensures r.Some? ==> i < r.value.end <= |s|
  {
    var j :- Lit(s, i, "import");
    var k :- Run1(s, j, Space);
    if k < |s| && IsQuote(s[k]) then QuotedSpecifier(s, k)
    else
      var q :- ImportClause(s, k);
      QuotedSpecifier(s, q)
  }

  /** `class|function|const|let|var` at `i`, in that order; no one of them
      is a prefix of another. */
  function Declarator(s: string, i: nat): (r: Option<nat>)
    requires i <= |s|
    ensures r.Some? ==> i < r.value <= |s|
  {
    if Lit(s, i, "class").Some? then Lit(s, i, "class")
    else if Lit(s, i, "function").Some? then Lit(s, i, "function")
    else if Lit(s, i, "const").Some? then Lit(s, i, "const")
    else if Lit(s, i, "let").Some? then Lit(s, i, "let")
    else Lit(s, i, "var")
  }

  /** The export at `i`. Giving up the `default` group cannot help: no
      declarator starts with `d`. */
  function ScriptExportAt(s: string, i: nat): (r: Option<Hit>)
    requires i <= |s|
    ensures r.Some? ==> i < r.value.end <= |s|
  {
    var j :- Lit(s, i, "export");
    var k :- Run1(s, j, Space);
    var w :- Declarator(s, LinePatterns.SkipKeyword(s, k, "default"));
    var n :- Run1(s, w, Space);
    var e :- Run1(s, n, Word);
    Some(Hit(Some(s[n..e]), e))
  }

  /** `from\s+(\S+)\s+import`: the match ends right after `import`. */
  function FromImportAt(s: string, i: nat): (r: Option<Hit>)
    requires i <= |s|
    ensures r.Some? ==> i < r.value.end <= |s|
  {
    var a :- Lit(s, i, "from");
    var b :- Run1(s, a, Space);
    var c :- Run1(s, b, NotSpace);
    var d :- Run1(s, c, Space);
    var e :- Lit(s, d, "import");
    Some(Hit(Some(s[b..c]), e))
  }

  /** The Python import at `i`: the `from` alternative first, then
      `import\s+(\S+)`; `match[1] || match[2]` is the group that took part. */
  function PythonImportAt(s: string, i: nat): (r: Option<Hit>)
    requires i <= |s|
    ensures r.Some? ==> i < r.value.end <= |s|
  {
    if FromImportAt(s, i).Some? then FromImportAt(s, i)
    else
      var a :- Lit(s, i, "import");
      var b :- Run1(s, a, Space);
      var c :- Run1(s, b, NotSpace);
      Some(Hit(Some(s[b..c]), c))
  }

  /** The Java or C include at `i`. */
  function IncludeAt(s: string, i: nat): (r: Option<Hit>)
    requires i <= |s|
    ensures r.Some? ==> i < r.value.end <= |s|
  {
    var j :- if Lit(s, i, "import").Some? then Lit(s, i, "import") else Lit(s, i, "#include");
    var k :- Run1(s, j, Space);
    var a :- CharIn(s, k, {'<', '"'});
    var b :- Run1(s, a, NotAngleOrQuote);
    var c :- CharIn(s, b, {'>', '"'});
    Some(Hit(Some(s[a..b]), c))
  }

  /** The Go import at `i`. A block `( ... )` ends at the first `)` (the lazy
      `[\s\S]*?`) and captures nothing; `"path"` captures the path. */
  function GoImportAt(s: string, i: nat): (r: Option<Hit>)
    requires i <= |s|
    ensures r.Some? ==> i < r.value.end <= |s|
  {
    var j :- Lit(s, i, "import");
    var k :- Run1(s, j, Space);
    if k < |s| && s[k] == '(' then
      var c :- CharIn(s, RunEnd(s, k + 1, NotCloseParen), {')'});
      Some(Hit(None, c))
    else
      var a :- CharIn(s, k, {'"'});
      var b :- Run1(s, a, NotDoubleQuote);
      var c :- CharIn(s, b, {'"'});
      Some(Hit(Some(s[a..b]), c))
  }

  function MatchAt(p: ScanPattern, s: string, i: nat): (r: Option<Hit>)
    requires i <= |s|
    ensures r.Some? ==> i < r.value.end <= |s|
  {
    match p
    case ScriptImport => ScriptImportAt(s, i)
    case ScriptExport => ScriptExportAt(s, i)
    case PythonImport => PythonImportAt(s, i)
    case IncludeImport => IncludeAt(s, i)
    case GoImport => GoImportAt(s, i)
  }

  // ---------------------------------------------------------------------------
  // exec and the collecting loop
  // ---------------------------------------------------------------------------

  /** `re.exec(s)` with `re.lastIndex == from`: the leftmost match. */
  function Exec(p: ScanPattern, s: string, from: nat): (r: Option<Hit>)
    requires from <= |s|
    ensures r.Some? ==> from < r.value.end <= |s|
    decreases |s| - from
  {
    if from == |s| then None
    else if MatchAt(p, s, from).Some? then MatchAt(p, s, from)
    else Exec(p, s, from + 1)
  }

  /** Where the leftmost match starts, when there is one. */
  function ExecStart(p: ScanPattern, s: string, from: nat): (k: nat)
    requires from <= |s|
    ensures from <= k <= |s|
    decreases |s| - from
  {
    if from == |s| || MatchAt(p, s, from).Some? then from else ExecStart(p, s, from + 1)
  }

  /** A match `exec` finds is the match at its start. */
  lemma {:induction false} ExecFound(p: ScanPattern, s: string, from: nat)
    requires from <= |s|
    ensures Exec(p, s, from).Some? ==>
      ExecStart(p, s, from) < |s| && Exec(p, s, from) == MatchAt(p, s, ExecStart(p, s, from))
    ensures Exec(p, s, from).None? ==> ExecStart(p, s, from) == |s|
    decreases |s| - from
  {
    if from < |s| && MatchAt(p, s, from).None? {
      ExecFound(p, s, from + 1);
    }
  }

  /** `exec` finds the leftmost match: there is none before its start, and
      none at all when it fails. */
  lemma {:induction false} ExecLeftmost(p: ScanPattern, s: string, from: nat, k: nat)
    requires from <= |s| && from <= k < ExecStart(p, s, from)
    ensures MatchAt(p, s, k).None?
    decreases |s| - from
  {
    if from < k {
      ExecLeftmost(p, s, from + 1, k);
    }
  }

  /** What the loop pushes for one match. */
  function Pushed(h: Hit): seq<string> {
    if h.capture.Some? then [h.capture.value] else []
  }

  /** Everything the loop collects once `lastIndex` is `from`. */
  function Captures(p: ScanPattern, s: string, from: nat): seq<string>
    requires from <= |s|
    decreases |s| - from
  {
    match Exec(p, s, from)
    case None => []
    case Some(h) => Pushed(h) + Captures(p, s, h.end)
  }

  /** One match: its capture, then everything after it. */
  lemma CapturesStep(p: ScanPattern, s: string, from: nat)
    requires from <= |s| && Exec(p, s, from).Some?
    ensures Captures(p, s, from)
         == Pushed(Exec(p, s, from).value) + Captures(p, s, Exec(p, s, from).value.end)
  {
  }

  /** `while ((match = re.exec(content)) !== null) list.push(match[1])`. */
  method CollectMatches(p: ScanPattern, content: string) returns (list: seq<string>)
    ensures list == Captures(p, content, 0)
  {
    list := [];
    var lastIndex := 0;
    var m := Exec(p, content, lastIndex);
    while m.Some?
      invariant lastIndex <= |content|
      invariant m == Exec(p, content, lastIndex)
      invariant list + Captures(p, content, lastIndex) == Captures(p, content, 0)
      decreases |content| - lastIndex
    {
      CapturesStep(p, content, lastIndex);
      assert list + Captures(p, content, lastIndex)
          == (list + Pushed(m.value)) + Captures(p, content, m.value.end);
      list := list + Pushed(m.value);
      lastIndex := m.value.end;
      m := Exec(p, content, lastIndex);
    }
  }

  // ---------------------------------------------------------------------------
  // What the captures are
  // ---------------------------------------------------------------------------

  /** The characters every capture of an expression is made of. */
  function CaptureClass(p: ScanPattern): CharClass {
    match p
    case ScriptImport => NotQuote
    case ScriptExport => Word
    case PythonImport => NotSpace
    case IncludeImport => NotAngleOrQuote
    case GoImport => NotDoubleQuote
  }

  /** A capture of the quoted form is a nonempty run without quotes. */
  lemma QuotedSpecifierSpec(s: string, q: nat)
    requires q <= |s|
    ensures QuotedSpecifier(s, q).Some? ==> QuotedSpecifier(s, q).value.capture.Some?
    ensures QuotedSpecifier(s, q).Some? ==>
      var c := QuotedSpecifier(s, q).value.capture.value; c != [] && AllIn(NotQuote, c)
  {
    if q < |s| {
      RunSlice(s, q + 1, NotQuote);
    }
  }

  lemma ScriptImportSpec(s: string, i: nat)
    requires i <= |s|
    ensures ScriptImportAt(s, i).Some? ==> ScriptImportAt(s, i).value.capture.Some?
    ensures ScriptImportAt(s, i).Some? ==>
      var c := ScriptImportAt(s, i).value.capture.value; c != [] && AllIn(NotQuote, c)
  {
    if Lit(s, i, "import").Some? && Run1(s, i + 6, Space).Some? {
      var k := Run1(s, i + 6, Space).value;
      QuotedSpecifierSpec(s, k);
      if ImportClause(s, k).Some? {
        QuotedSpecifierSpec(s, ImportClause(s, k).value);
      }
    }
  }

  lemma ScriptExportSpec(s: string, i: nat)
    requires i <= |s|
    ensures ScriptExportAt(s, i).Some? ==> ScriptExportAt(s, i).value.capture.Some?
    ensures ScriptExportAt(s, i).Some? ==>
      var c := ScriptExportAt(s, i).value.capture.value; c != [] && AllIn(Word, c)
  {
    if ScriptExportAt(s, i).Some? {
      var k := Run1(s, i + 6, Space).value;
      var w := Declarator(s, LinePatterns.SkipKeyword(s, k, "default")).value;
      RunSlice(s, Run1(s, w, Space).value, Word);
    }
  }

  lemma PythonImportSpec(s: string, i: nat)
    requires i <= |s|
    ensures PythonImportAt(s, i).Some? ==> PythonImportAt(s, i).value.capture.Some?
    ensures PythonImportAt(s, i).Some? ==>
      var c := PythonImportAt(s, i).value.capture.value; c != [] && AllIn(NotSpace, c)
  {
    if FromImportAt(s, i).Some? {
      RunSlice(s, Run1(s, i + 4, Space).value, NotSpace);
    } else if PythonImportAt(s, i).Some? {
      RunSlice(s, Run1(s, i + 6, Space).value, NotSpace);
    }
  }

  lemma IncludeSpec(s: string, i: nat)
    requires i <= |s|
    ensures IncludeAt(s, i).Some? ==> IncludeAt(s, i).value.capture.Some?
    ensures IncludeAt(s, i).Some? ==>
      var c := IncludeAt(s, i).value.capture.value; c != [] && AllIn(NotAngleOrQuote, c)
  {
    if IncludeAt(s, i).Some? {
      var j := if Lit(s, i, "import").Some? then i + 6 else i + 8;
      RunSlice(s, Run1(s, j, Space).value + 1, NotAngleOrQuote);
    }
  }

  lemma GoImportSpec(s: string, i: nat)
    requires i <= |s|
    ensures GoImportAt(s, i).Some? && GoImportAt(s, i).value.capture.Some? ==>
      var c := GoImportAt(s, i).value.capture.value; c != [] && AllIn(NotDoubleQuote, c)
  {
    if GoImportAt(s, i).Some? {
      RunSlice(s, Run1(s, i + 6, Space).value + 1, NotDoubleQuote);
    }
  }

  /** Every capture at one position is nonempty and made of its class. */
  lemma MatchAtSpec(p: ScanPattern, s: string, i: nat)
    requires i <= |s|
    ensures MatchAt(p, s, i).Some? && MatchAt(p, s, i).value.capture.Some? ==>
      var c := MatchAt(p, s, i).value.capture.value; c != [] && AllIn(CaptureClass(p), c)
  {
    match p
    case ScriptImport => ScriptImportSpec(s, i);
    case ScriptExport => ScriptExportSpec(s, i);
    case PythonImport => PythonImportSpec(s, i);
    case IncludeImport => IncludeSpec(s, i);
    case GoImport => GoImportSpec(s, i);
  }

  /** Every collected string is nonempty and made of its expression's class:
      script specifiers hold no quote, exported names are words. */
  lemma {:induction false} CapturesSpec(p: ScanPattern, s: string, from: nat)
    requires from <= |s|
    ensures forall c :: c in Captures(p, s, from) ==> c != [] && AllIn(CaptureClass(p), c)
    decreases |s| - from
  {
    if Exec(p, s, from).Some? {
      var h := Exec(p, s, from).value;
      ExecFound(p, s, from);
      MatchAtSpec(p, s, ExecStart(p, s, from));
      CapturesSpec(p, s, h.end);
    }
  }

  /** Every match but a Go import block contributes exactly one string. */
  lemma MatchAtCaptures(p: ScanPattern, s: string, i: nat)
    requires i <= |s| && p != GoImport
    ensures MatchAt(p, s, i).Some? ==> MatchAt(p, s, i).value.capture.Some?
  {
    match p
    case ScriptImport => ScriptImportSpec(s, i);
    case ScriptExport => ScriptExportSpec(s, i);
    case PythonImport => PythonImportSpec(s, i);
    case IncludeImport => IncludeSpec(s, i);
  }

  // ---------------------------------------------------------------------------
  // Go: only the quoted form is captured
  // ---------------------------------------------------------------------------

  /** A file that is one parenthesised Go import block, with no `)` inside
      it, contributes no specifier: the block is one match and its group does
      not take part. */
  lemma GoBlockCapturesNothing(ws: string, body: string)
    requires ws != [] && AllIn(Space, ws)
    requires ')' !in body
    ensures Captures(GoImport, "import" + ws + "(" + body + ")", 0) == []
  {
    var s := "import" + ws + "(" + body + ")";
    var k := 6 + |ws|;
    assert s[0..6] == "import";
    assert forall m :: 6 <= m < k ==> s[m] == ws[m - 6];
    assert s[k] == '(';
    RunEndIs(s, 6, k, Space);
    assert forall m :: k + 1 <= m < |s| - 1 ==> s[m] == body[m - k - 1];
    RunEndIs(s, k + 1, |s| - 1, NotCloseParen);
    assert GoImportAt(s, 0) == Some(Hit(None, |s|));
  }

  /** `import "fmt"` contributes `fmt`. */
  lemma GoQuotedCaptured(ws: string, path: string)
    requires ws != [] && AllIn(Space, ws)
    requires path != [] && '"' !in path
    ensures Captures(GoImport, "import" + ws + "\"" + path + "\"", 0) == [path]
  {
    var s := "import" + ws + "\"" + path + "\"";
    var k := 6 + |ws|;
    assert s[0..6] == "import";
    assert forall m :: 6 <= m < k ==> s[m] == ws[m - 6];
    assert s[k] == '"';
    RunEndIs(s, 6, k, Space);
    assert forall m :: k + 1 <= m < |s| - 1 ==> s[m] == path[m - k - 1];
    RunEndIs(s, k + 1, |s| - 1, NotDoubleQuote);
    assert s[k + 1..|s| - 1] == path;
    assert GoImportAt(s, 0) == Some(Hit(Some(path), |s|));
  }
}
