/** The anchored, per-line regular expressions of the project analyser
    (supabase/functions/analyze-code/index.ts, `analyzeCodeStructure`).
    Each is applied to a trimmed line and yields its first capture group.
    Every pattern is written out as an explicit scan: greedy runs are maximal
    runs, and where the regex engine could backtrack the alternatives are
    tried in the order the engine tries them. */
module LinePatterns {

  import opened Wrappers
  import opened Strings

  // ---------------------------------------------------------------------------
  // Building blocks
  // ---------------------------------------------------------------------------

  /** `kw\s+(\w+)` at position `i`. */
  function KeywordName(t: string, i: nat, kw: string): Option<string>
    requires i <= |t|
  {
    var j :- Lit(t, i, kw);
    var k :- Run1(t, j, Space);
    var e :- Run1(t, k, Word);
    Some(t[k..e])
  }

  /** A capture of the keyword pattern is a nonempty word, and the keyword
      is where the pattern was applied. */
  lemma KeywordNameSpec(t: string, i: nat, kw: string)
    requires i <= |t|
    ensures KeywordName(t, i, kw).Some? ==>
      KeywordName(t, i, kw).value != [] && AllIn(Word, KeywordName(t, i, kw).value)
    ensures KeywordName(t, i, kw).Some? ==> i + |kw| <= |t| && t[i..i + |kw|] == kw
  {
    if KeywordName(t, i, kw).Some? {
      var k := Run1(t, i + |kw|, Space).value;
      RunSlice(t, k, Word);
    }
  }

  /** The optional group `(?:kw\s+)?` at position `i`: where the rest of the
      pattern starts. */
  function SkipKeyword(t: string, i: nat, kw: string): (j: nat)
    requires i <= |t|
    ensures i <= j <= |t|
  {
    match Lit(t, i, kw)
    case None => i
    case Some(a) =>
      match Run1(t, a, Space)
      case None => i
      case Some(b) => b
  }

  /** The group is skipped only when the keyword and some white space are
      there. */
  lemma SkipKeywordSpec(t: string, i: nat, kw: string)
    requires i <= |t|
    ensures SkipKeyword(t, i, kw) != i ==>
      i + |kw| < SkipKeyword(t, i, kw) && t[i..i + |kw|] == kw
  {
  }

  // ---------------------------------------------------------------------------
  // Complexity keywords
  // ---------------------------------------------------------------------------

  /** The complexity test of one trimmed line: any of five branch keywords,
      each followed by a space, occurs anywhere in it. */
  predicate HasBranchKeyword(t: string) {
    Contains(t, "if ") || Contains(t, "for ") || Contains(t, "while ")
    || Contains(t, "switch ") || Contains(t, "case ")
  }

  // ---------------------------------------------------------------------------
  // Python
  // ---------------------------------------------------------------------------

  /** `^class\s+(\w+)` */
  function PyClass(t: string): Option<string> {
    KeywordName(t, 0, "class")
  }

  lemma PyClassSpec(t: string)
    ensures PyClass(t).Some? ==>
      HasPrefix(t, "class") && PyClass(t).value != [] && AllIn(Word, PyClass(t).value)
  {
    KeywordNameSpec(t, 0, "class");
  }

  /** `^def\s+(\w+)` */
  function PyDef(t: string): Option<string> {
    KeywordName(t, 0, "def")
  }

  lemma PyDefSpec(t: string)
    ensures PyDef(t).Some? ==>
      HasPrefix(t, "def") && PyDef(t).value != [] && AllIn(Word, PyDef(t).value)
  {
    KeywordNameSpec(t, 0, "def");
  }

  /** Where `import` must start for `^(?:from\s+[\w.]+\s+)?import`: after the
      `from` clause when the line starts with `from` (if that clause fails,
      the unprefixed alternative fails too, as the line starts with `f`). */
  function PyImportStart(t: string): (r: Option<nat>)
    ensures r.Some? ==> r.value <= |t|
    ensures !HasPrefix(t, "from") ==> r == Some(0)
  {
    if HasPrefix(t, "from") then
      var a :- Lit(t, 0, "from");
      var b :- Run1(t, a, Space);
      var c :- Run1(t, b, WordOrDot);
      Run1(t, c, Space)
    else
      Some(0)
  }

  /** The capture of `import\s+([\w,\s]+)`. The greedy `\s+` takes the whole
      run of white space unless nothing would be left for the group; then it
      gives the group back the last white-space character. */
  function PyImportList(t: string): Option<string> {
    var p :- PyImportStart(t);
    var j :- Lit(t, p, "import");
    var l := RunEnd(t, j, Space);
    var m := RunEnd(t, j, WordCommaSpace);
    if l == j then None
    else if l < m then Some(t[l..m])
    else if l - j >= 2 then Some(t[l - 1..l])
    else None
  }

  /** The list capture is nonempty and made only of word characters, commas
      and white space. */
  lemma PyImportListSpec(t: string)
    ensures PyImportList(t).Some? ==>
      PyImportList(t).value != [] && AllIn(WordCommaSpace, PyImportList(t).value)
  {
    if PyImportList(t).Some? {
      var j := PyImportStart(t).value + 6;
      var l := RunEnd(t, j, Space);
      var m := RunEnd(t, j, WordCommaSpace);
      RunEndSpec(t, j, Space);
      RunEndSpec(t, j, WordCommaSpace);
      if l < m {
        assert forall k :: l <= k < m ==> InClass(WordCommaSpace, t[k]);
      } else {
        assert InClass(Space, t[l - 1]);
      }
    }
  }

  /** `importMatch[1].split(',')[0].trim()`: the first name of the list. */
  function PyImport(t: string): Option<string> {
    var list :- PyImportList(t);
    Some(Trim(FirstSegment(list, ',')))
  }

  /** The recorded name holds no comma and neither starts nor ends with
      white space. */
  lemma PyImportSpec(t: string)
    ensures PyImport(t).Some? ==> ',' !in PyImport(t).value
    ensures PyImport(t).Some? ==>
      (PyImport(t).value == []
       || (!IsSpace(PyImport(t).value[0]) && !IsSpace(PyImport(t).value[|PyImport(t).value| - 1])))
  {
    if PyImportList(t).Some? {
      var first := FirstSegment(PyImportList(t).value, ',');
      FirstSegmentSpec(PyImportList(t).value, ',');
      TrimNoNewChars(first, ',');
      TrimSpec(first);
    }
  }

  /** Trimming adds no character. */
  lemma TrimNoNewChars(s: string, c: char)
    requires c !in s
    ensures c !in Trim(s)
  {
    TrimSpec(s);
    var i := |s| - |TrimLeft(s)|;
    var r := Trim(s);
    assert forall k :: 0 <= k < |r| ==> r[k] == s[i + k];
  }

  // ---------------------------------------------------------------------------
  // JavaScript and TypeScript
  // ---------------------------------------------------------------------------

  /** `^(?:export\s+)?class\s+(\w+)` */
  function JsClass(t: string): Option<string> {
    KeywordName(t, SkipKeyword(t, 0, "export"), "class")
  }

  lemma JsClassSpec(t: string)
    ensures JsClass(t).Some? ==> JsClass(t).value != [] && AllIn(Word, JsClass(t).value)
  {
    KeywordNameSpec(t, SkipKeyword(t, 0, "export"), "class");
  }

  /** `^(?:export\s+)?(?:async\s+)?function\s+(\w+)` */
  function JsFunction(t: string): Option<string> {
    var p := SkipKeyword(t, 0, "export");
    KeywordName(t, SkipKeyword(t, p, "async"), "function")
  }

  lemma JsFunctionSpec(t: string)
    ensures JsFunction(t).Some? ==> JsFunction(t).value != [] && AllIn(Word, JsFunction(t).value)
  {
    var p := SkipKeyword(t, 0, "export");
    KeywordNameSpec(t, SkipKeyword(t, p, "async"), "function");
  }

  /** `^(?:export\s+)?const\s+(\w+)\s*=\s*(?:async\s*)?\([^)]*\)\s*=>` */
  function JsArrow(t: string): Option<string> {
    var p := SkipKeyword(t, 0, "export");
    var j :- Lit(t, p, "const");
    var k :- Run1(t, j, Space);
    var e :- Run1(t, k, Word);
    var eq :- Lit(t, RunEnd(t, e, Space), "=");
    var a := RunEnd(t, eq, Space);
    var b := match Lit(t, a, "async") case Some(x) => RunEnd(t, x, Space) case None => a;
    var open :- Lit(t, b, "(");
    var close :- Lit(t, RunEnd(t, open, NotCloseParen), ")");
    var arrow :- Lit(t, RunEnd(t, close, Space), "=>");
    Some(t[k..e])
  }

  lemma JsArrowSpec(t: string)
    ensures JsArrow(t).Some? ==> JsArrow(t).value != [] && AllIn(Word, JsArrow(t).value)
  {
    if JsArrow(t).Some? {
      var j := SkipKeyword(t, 0, "export") + 5;
      var k := Run1(t, j, Space).value;
      RunSlice(t, k, Word);
    }
  }

  /** `^import\s+(?:{[^}]+}|\w+)\s+from\s+['"]([^'"]+)['"]` */
  function JsImport(t: string): Option<string> {
    var j :- Lit(t, 0, "import");
    var k :- Run1(t, j, Space);
    var m :-
      if k < |t| && t[k] == '{' then
        var e := RunEnd(t, k + 1, NotCloseBrace);
        if k + 1 < e < |t| then Some(e + 1) else None
      else
        Run1(t, k, Word);
    var n :- Run1(t, m, Space);
    var o :- Lit(t, n, "from");
    var p :- Run1(t, o, Space);
    var q :- CharIn(t, p, {'\'', '"'});
    var r :- Run1(t, q, NotQuote);
    var close :- CharIn(t, r, {'\'', '"'});
    Some(t[q..r])
  }

  /** The module specifier is nonempty and holds no quote; the line starts
      with `import`. */
  lemma JsImportSpec(t: string)
    ensures JsImport(t).Some? ==> JsImport(t).value != [] && AllIn(NotQuote, JsImport(t).value)
    ensures JsImport(t).Some? ==> HasPrefix(t, "import")
  {
    if JsImport(t).Some? {
      var v := JsImport(t).value;
      var q: nat :| q <= |t| && Run1(t, q, NotQuote).Some? && v == t[q..RunEnd(t, q, NotQuote)];
      RunSlice(t, q, NotQuote);
    }
  }

  // ---------------------------------------------------------------------------
  // Java
  // ---------------------------------------------------------------------------

  /** `^(?:public\s+)?class\s+(\w+)` */
  function JavaClass(t: string): Option<string> {
    KeywordName(t, SkipKeyword(t, 0, "public"), "class")
  }

  lemma JavaClassSpec(t: string)
    ensures JavaClass(t).Some? ==> JavaClass(t).value != [] && AllIn(Word, JavaClass(t).value)
  {
    KeywordNameSpec(t, SkipKeyword(t, 0, "public"), "class");
  }

  /** `^(?:public|private|protected)\s+`: where the rest starts. */
  function JavaModifierEnd(t: string): (r: Option<nat>)
    ensures r.Some? ==> r.value <= |t|
    ensures r.Some? ==> HasPrefix(t, "public") || HasPrefix(t, "private") || HasPrefix(t, "protected")
  {
    var m :-
      if HasPrefix(t, "public") then Some(6)
      else if HasPrefix(t, "private") then Some(7)
      else if HasPrefix(t, "protected") then Some(9)
      else None;
    Run1(t, m, Space)
  }

  /** `(?:\w+\s+)?(\w+)\s*\(` at `q`, with the optional type word tried
      first, as the engine does. */
  function MethodTail(t: string, q: nat): Option<string>
    requires q <= |t|
  {
    var typed :=
      var a :- Run1(t, q, Word);
      var b :- Run1(t, a, Space);
      var c :- Run1(t, b, Word);
      var d :- Lit(t, RunEnd(t, c, Space), "(");
      Some(t[b..c]);
    if typed.Some? then typed
    else
      var a :- Run1(t, q, Word);
      var d :- Lit(t, RunEnd(t, a, Space), "(");
      Some(t[q..a])
  }

  lemma MethodTailSpec(t: string, q: nat)
    requires q <= |t|
    ensures MethodTail(t, q).Some? ==>
      MethodTail(t, q).value != [] && AllIn(Word, MethodTail(t, q).value)
  {
    RunSlice(t, q, Word);
    var a := RunEnd(t, q, Word);
    if a < |t| && a > q {
      var b := RunEnd(t, a, Space);
      RunSlice(t, b, Word);
    }
  }

  /** `^(?:public|private|protected)\s+(?:static\s+)?(?:\w+\s+)?(\w+)\s*\(`:
      first with the `static` group taken, then without it. */
  function JavaMethod(t: string): Option<string> {
    var p :- JavaModifierEnd(t);
    var withStatic :=
      var s :- Lit(t, p, "static");
      var q :- Run1(t, s, Space);
      MethodTail(t, q);
    if withStatic.Some? then withStatic else MethodTail(t, p)
  }

  /** The method name is a nonempty word, on a line that starts with an
      access modifier. */
  lemma JavaMethodSpec(t: string)
    ensures JavaMethod(t).Some? ==> JavaMethod(t).value != [] && AllIn(Word, JavaMethod(t).value)
    ensures JavaMethod(t).Some? ==>
      HasPrefix(t, "public") || HasPrefix(t, "private") || HasPrefix(t, "protected")
  {
    if JavaModifierEnd(t).Some? {
      var p := JavaModifierEnd(t).value;
      MethodTailSpec(t, p);
      if Lit(t, p, "static").Some? && Run1(t, p + 6, Space).Some? {
        MethodTailSpec(t, Run1(t, p + 6, Space).value);
      }
    }
  }

  /** `^import\s+([\w.]+);` */
  function JavaImport(t: string): Option<string> {
    var j :- Lit(t, 0, "import");
    var k :- Run1(t, j, Space);
    var e :- Run1(t, k, WordOrDot);
    var semi :- Lit(t, e, ";");
    Some(t[k..e])
  }

  /** The imported name is nonempty, made of word characters and dots, on a
      line that starts with `import`. */
  lemma JavaImportSpec(t: string)
    ensures JavaImport(t).Some? ==> JavaImport(t).value != [] && AllIn(WordOrDot, JavaImport(t).value)
    ensures JavaImport(t).Some? ==> HasPrefix(t, "import")
  {
    if JavaImport(t).Some? {
      RunSlice(t, Run1(t, 6, Space).value, WordOrDot);
    }
  }

  // ---------------------------------------------------------------------------
  // What the patterns capture on lines built from their parts
  // ---------------------------------------------------------------------------

  /** `kw`, white space, a word and anything that does not continue the word:
      the keyword pattern captures exactly that word. */
  lemma KeywordNameOf(kw: string, ws: string, name: string, rest: string)
    requires ws != [] && AllIn(Space, ws)
    requires name != [] && AllIn(Word, name)
    requires rest == [] || !IsWordChar(rest[0])
    ensures KeywordName(kw + ws + name + rest, 0, kw) == Some(name)
  {
    var t := kw + ws + name + rest;
    var j, k, e := |kw|, |kw| + |ws|, |kw| + |ws| + |name|;
    assert t[0..j] == kw;
    assert forall m :: j <= m < k ==> t[m] == ws[m - j];
    assert t[k] == name[0];
    WordCharIsNotSpace(name[0]);
    RunEndIs(t, j, k, Space);
    RunEndSpec(t, k, Word);
    assert forall m :: k <= m < e ==> t[m] == name[m - k];
    assert e < |t| ==> t[e] == rest[0];
    RunEndIs(t, k, e, Word);
    assert t[k..e] == name;
  }

  /** A Python class header such as `class Foo:` yields its name. */
  lemma PyClassOf(ws: string, name: string, rest: string)
    requires ws != [] && AllIn(Space, ws)
    requires name != [] && AllIn(Word, name)
    requires rest == [] || !IsWordChar(rest[0])
    ensures PyClass("class" + ws + name + rest) == Some(name)
  {
    KeywordNameOf("class", ws, name, rest);
  }

  /** The first segment of `a + sep + x` is `a` when `a` has no separator. */
  lemma FirstSegmentOf(a: string, sep: char, x: string)
    requires sep !in a
    ensures FirstSegment(a + [sep] + x, sep) == a
  {
    var s := a + [sep] + x;
    FirstSegmentSpec(s, sep);
    var f := FirstSegment(s, sep);
    assert s[..|a|] == a;
    assert forall k :: 0 <= k < |a| ==> s[k] != sep;
    assert s[|a|] == sep;
    assert |f| == |a|;
    assert f == s[..|f|];
  }

  /** The list capture once `import` and its white space have been found at
      the start of the line. */
  lemma PyImportListAt(t: string, l: nat)
    requires !HasPrefix(t, "from") && HasPrefix(t, "import")
    requires 6 < l <= |t| && RunEnd(t, 6, Space) == l
    requires l < RunEnd(t, 6, WordCommaSpace)
    ensures PyImportList(t) == Some(t[l..RunEnd(t, 6, WordCommaSpace)])
  {
    assert Lit(t, 0, "import") == Some(6);
  }

  /** `import a, b` in Python records only the first name, `a`. */
  lemma PyImportFirstName(ws: string, a: string, rest: string)
    requires ws != [] && AllIn(Space, ws)
    requires a != [] && AllIn(Word, a)
    ensures PyImport("import" + ws + a + "," + rest) == Some(a)
  {
    var t := "import" + ws + a + "," + rest;
    var l := 6 + |ws|;
    var comma := l + |a|;
    assert t[..6] == "import";
    assert t[0] == 'i';
    assert forall m :: 6 <= m < l ==> t[m] == ws[m - 6];
    assert forall m :: l <= m < comma ==> t[m] == a[m - l];
    assert t[comma] == ',';
    WordCharIsNotSpace(a[0]);
    RunEndIs(t, 6, l, Space);
    var m := RunEnd(t, 6, WordCommaSpace);
    assert forall p :: 6 <= p <= comma ==> InClass(WordCommaSpace, t[p]);
    RunEndSpec(t, 6, WordCommaSpace);
    assert comma < m;
    PyImportListAt(t, l);
    var list := t[l..m];
    assert list == a + [','] + t[comma + 1..m];
    FirstSegmentOf(a, ',', t[comma + 1..m]);
    WordCharIsNotSpace(a[|a| - 1]);
    TrimSpec(a);
  }
}
