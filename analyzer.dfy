/** The project analyser of the `analyze-code` function
    (supabase/functions/analyze-code/index.ts): `analyzeFiles` folds the
    uploaded files into one summary object that `analyzeCodeStructure`,
    `detectJSFrameworks` and `detectPythonFrameworks` update in place;
    `calculateQualityScore` scores a conversation and
    `generateSmartSuggestions` lists what the project lacks.

    The summary object is the class `Analysis`; each of its methods is
    specified by a pure function on the value `Summary` (its `Snapshot`), so
    that the properties of a whole analysis are lemmas about those functions. */
module Analyzer {

  import opened Wrappers
  import opened Strings
  import opened LinePatterns

  // ---------------------------------------------------------------------------
  // Data
  // ---------------------------------------------------------------------------

  /** One uploaded record `{name, content}`; an absent content reads as "". */
  datatype SourceFile = SourceFile(name: string, content: string)

  /** The language argument of `analyzeCodeStructure`. */
  datatype Lang = Python | JavaScript | TypeScript | Java | Go | Rust

  /** What `JSON.parse` and the two property reads make of a `package.json`:
      either it throws (malformed text, or a document whose properties cannot
      be read), or it gives the own keys of `dependencies` and
      `devDependencies`, each with the JavaScript truthiness of its value. */
  datatype Manifest =
    | Unparseable
    | Parsed(dependencies: map<string, bool>, devDependencies: map<string, bool>)

  /** The `analysis` object; a JavaScript Set is an insertion-ordered
      sequence without repetitions, as `Array.from` reads it back. */
  datatype Summary = Summary(
    languages: seq<string>,
    frameworks: seq<string>,
    hasPackageJson: bool,
    hasRequirementsTxt: bool,
    hasPomXml: bool,
    hasDockerfile: bool,
    totalFiles: nat,
    codeFiles: nat,
    configFiles: nat,
    totalLines: nat,
    classes: seq<string>,
    functions: seq<string>,
    imports: seq<string>,
    complexity: nat)

  /** The object literal `analyzeFiles` starts from. */
  function Initial(fileCount: nat): Summary {
    Summary([], [], false, false, false, false, fileCount, 0, 0, 0, [], [], [], 0)
  }

  /** `content.split('\n')`. */
  function Lines(content: string): seq<string> {
    Split(content, '\n')
  }

  /** A successful capture as a one-element list, a failed one as none. */
  function Captured(o: Option<string>): seq<string> {
    if o.Some? then [o.value] else []
  }

  // ---------------------------------------------------------------------------
  // analyzeCodeStructure
  // ---------------------------------------------------------------------------

  /** The names a line's patterns capture. */
  datatype Names = Names(classes: seq<string>, functions: seq<string>, imports: seq<string>)

  /** What one line contributes: whether its trimmed text holds a branch
      keyword, and the names its language's patterns capture. */
  datatype LineMatch = LineMatch(branch: bool, names: Names)

  const NoNames := Names([], [], [])

  /** The `language === 'python'` branch on a trimmed line. */
  function PythonNames(t: string): Names {
    Names(Captured(PyClass(t)), Captured(PyDef(t)), Captured(PyImport(t)))
  }

  /** The `javascript` / `typescript` branch: a function declaration and an
      arrow function are both recorded when both match. */
  function ScriptNames(t: string): Names {
    Names(Captured(JsClass(t)), Captured(JsFunction(t)) + Captured(JsArrow(t)), Captured(JsImport(t)))
  }

  /** The `language === 'java'` branch. */
  function JavaNames(t: string): Names {
    Names(Captured(JavaClass(t)), Captured(JavaMethod(t)), Captured(JavaImport(t)))
  }

  /** The body of `lines.forEach` in `analyzeCodeStructure`, read off one
      line: the complexity test runs for every language; the patterns run on
      the trimmed line, and Go and Rust have none. */
  function MatchLine(line: string, lang: Lang): LineMatch {
    var t := Trim(line);
    LineMatch(HasBranchKeyword(t), NamesOf(t, lang))
  }

  /** The language dispatch of `analyzeCodeStructure`. */
  function NamesOf(t: string, lang: Lang): Names {
    if lang == Go || lang == Rust then NoNames
    else if lang == Python then PythonNames(t)
    else if lang == Java then JavaNames(t)
    else ScriptNames(t)
  }

  /** The lines read off in order. */
  function MatchLines(lines: seq<string>, lang: Lang): (ms: seq<LineMatch>)
    ensures |ms| == |lines|
    decreases |lines|
  {
    if lines == [] then []
    else MatchLines(lines[..|lines| - 1], lang) + [MatchLine(lines[|lines| - 1], lang)]
  }

  /** One more line is one more match. */
  lemma MatchLinesSnoc(lines: seq<string>, line: string, lang: Lang)
    ensures MatchLines(lines + [line], lang) == MatchLines(lines, lang) + [MatchLine(line, lang)]
  {
    assert (lines + [line])[..|lines|] == lines;
  }

  /** Each list of `a` followed by the same list of `b`. */
  function AppendNames(a: Names, b: Names): Names {
    Names(a.classes + b.classes, a.functions + b.functions, a.imports + b.imports)
  }

  /** What one line's match does to the summary. */
  function Record(s: Summary, m: LineMatch): Summary {
    s.(complexity := s.complexity + (if m.branch then 1 else 0),
       classes := s.classes + m.names.classes,
       functions := s.functions + m.names.functions,
       imports := s.imports + m.names.imports)
  }

  /** The matches recorded in order: `analyzeCodeStructure` is
      `Structure(s, MatchLines(content.split('\n'), language))`. */
  function Structure(s: Summary, ms: seq<LineMatch>): Summary
    decreases |ms|
  {
    if ms == [] then s
    else Record(Structure(s, ms[..|ms| - 1]), ms[|ms| - 1])
  }

  /** The scan touches only the three name lists and the complexity. */
  lemma {:induction false} StructureFrame(s: Summary, ms: seq<LineMatch>)
    ensures Structure(s, ms).(classes := s.classes, functions := s.functions,
                              imports := s.imports, complexity := s.complexity) == s
    decreases |ms|
  {
    if ms != [] {
      StructureFrame(s, ms[..|ms| - 1]);
    }
  }

  /** Complexity never decreases and rises by at most one per line, however
      many branch keywords the line holds. */
  lemma {:induction false} StructureComplexity(s: Summary, ms: seq<LineMatch>)
    ensures s.complexity <= Structure(s, ms).complexity <= s.complexity + |ms|
    decreases |ms|
  {
    if ms != [] {
      StructureComplexity(s, ms[..|ms| - 1]);
    }
  }

  /** `a` keeps `b`'s name lists as prefixes of its own. */
  predicate Extends(a: Summary, b: Summary) {
    IsPrefix(b.classes, a.classes) && IsPrefix(b.functions, a.functions) && IsPrefix(b.imports, a.imports)
  }

  predicate IsPrefix(p: seq<string>, q: seq<string>) {
    |p| <= |q| && q[..|p|] == p
  }

  lemma ExtendsTransitive(a: Summary, b: Summary, c: Summary)
    requires Extends(a, b) && Extends(b, c)
    ensures Extends(a, c)
  {
    assert a.classes[..|c.classes|] == a.classes[..|b.classes|][..|c.classes|];
    assert a.functions[..|c.functions|] == a.functions[..|b.functions|][..|c.functions|];
    assert a.imports[..|c.imports|] == a.imports[..|b.imports|][..|c.imports|];
  }

  /** The name lists only grow: earlier entries are kept in place. */
  lemma {:induction false} StructureExtends(s: Summary, ms: seq<LineMatch>)
    ensures Extends(Structure(s, ms), s)
    decreases |ms|
  {
    if ms != [] {
      var before := Structure(s, ms[..|ms| - 1]);
      StructureExtends(s, ms[..|ms| - 1]);
      var after := Structure(s, ms);
      assert after.classes[..|before.classes|] == before.classes;
      assert after.functions[..|before.functions|] == before.functions;
      assert after.imports[..|before.imports|] == before.imports;
      ExtendsTransitive(after, before, s);
    }
  }

  /** Recording one more match is one more step. */
  lemma StructureSnoc(s: Summary, ms: seq<LineMatch>, m: LineMatch)
    ensures Structure(s, ms + [m]) == Record(Structure(s, ms), m)
  {
    assert (ms + [m])[..|ms|] == ms;
  }

  /** Scanning one more line of a file records that line's match. */
  lemma StructureLine(s: Summary, lines: seq<string>, i: nat, lang: Lang)
    requires i < |lines|
    ensures Structure(s, MatchLines(lines[..i + 1], lang))
         == Record(Structure(s, MatchLines(lines[..i], lang)), MatchLine(lines[i], lang))
  {
    assert lines[..i + 1] == lines[..i] + [lines[i]];
    MatchLinesSnoc(lines[..i], lines[i], lang);
    StructureSnoc(s, MatchLines(lines[..i], lang), MatchLine(lines[i], lang));
  }

  /** Go and Rust files never add classes, functions or imports: the scanner
      has no branch for them. */
  lemma {:induction false} GoRustAddNoNames(s: Summary, lines: seq<string>, lang: Lang)
    requires lang == Go || lang == Rust
    ensures Structure(s, MatchLines(lines, lang)).classes == s.classes
    ensures Structure(s, MatchLines(lines, lang)).functions == s.functions
    ensures Structure(s, MatchLines(lines, lang)).imports == s.imports
    decreases |lines|
  {
    if lines != [] {
      var init := lines[..|lines| - 1];
      GoRustAddNoNames(s, init, lang);
      var ms := MatchLines(lines, lang);
      var mi := MatchLines(init, lang);
      assert ms[..|ms| - 1] == mi;
      assert ms[|ms| - 1].names == NoNames;
    }
  }

  /** A Python line that trims to `class Foo:` captures exactly the class
      `Foo`, and no function. */
  lemma PythonClassLine(line: string, ws: string, name: string, rest: string)
    requires ws != [] && AllIn(Space, ws)
    requires name != [] && AllIn(Word, name)
    requires rest == [] || !IsWordChar(rest[0])
    requires Trim(line) == "class" + ws + name + rest
    ensures MatchLine(line, Python).names.classes == [name]
    ensures MatchLine(line, Python).names.functions == []
  {
    PyClassOf(ws, name, rest);
    var t := Trim(line);
    PyDefSpec(t);
    assert !HasPrefix(t, "def") by { assert t[0] == 'c'; }
  }

  /** A Python line that trims to `import a, b` records only `a`. */
  lemma PythonImportLine(line: string, ws: string, a: string, rest: string)
    requires ws != [] && AllIn(Space, ws)
    requires a != [] && AllIn(Word, a)
    requires Trim(line) == "import" + ws + a + "," + rest
    ensures MatchLine(line, Python).names.imports == [a]
  {
    PyImportFirstName(ws, a, rest);
  }

  // ---------------------------------------------------------------------------
  // detectJSFrameworks and detectPythonFrameworks
  // ---------------------------------------------------------------------------

  predicate Truthy(m: map<string, bool>, key: string) {
    key in m && m[key]
  }

  /** `analysis.frameworks.add(tag)` when `cond` holds. */
  function AddTag(tags: seq<string>, cond: bool, tag: string): seq<string> {
    if cond then Insert(tags, tag) else tags
  }

  /** The list gains `tag` when `cond` holds, and nothing else. */
  lemma AddTagSpec(tags: seq<string>, cond: bool, tag: string)
    ensures forall x :: x in AddTag(tags, cond, tag) <==> x in tags || (cond && x == tag)
  {
    InsertSpec(tags, tag);
  }

  /** `{ ...pkg.dependencies, ...pkg.devDependencies }`: on a key both
      define, the development entry wins. */
  function MergedDependencies(m: Manifest): map<string, bool>
    requires m.Parsed?
  {
    m.dependencies + m.devDependencies
  }

  /** The six tests of `detectJSFrameworks`, in order. */
  function JsTags(tags: seq<string>, deps: map<string, bool>): seq<string> {
    var t1 := AddTag(tags, Truthy(deps, "react"), "React");
    var t2 := AddTag(t1, Truthy(deps, "vue"), "Vue");
    var t3 := AddTag(t2, Truthy(deps, "angular") || Truthy(deps, "@angular/core"), "Angular");
    var t4 := AddTag(t3, Truthy(deps, "next"), "Next.js");
    var t5 := AddTag(t4, Truthy(deps, "express"), "Express");
    AddTag(t5, Truthy(deps, "nestjs") || Truthy(deps, "@nestjs/core"), "NestJS")
  }

  /** `detectJSFrameworks`: a manifest that does not parse leaves the summary
      as it was (the exception is caught); otherwise the six tags are checked
      against the merged dependencies. */
  function JsFrameworks(s: Summary, m: Manifest): Summary {
    match m
    case Unparseable => s
    case Parsed(_, _) => s.(frameworks := JsTags(s.frameworks, MergedDependencies(m)))
  }

  /** Which package names give which tag. */
  predicate JsTagOf(deps: map<string, bool>, x: string) {
    (x == "React" && Truthy(deps, "react"))
    || (x == "Vue" && Truthy(deps, "vue"))
    || (x == "Angular" && (Truthy(deps, "angular") || Truthy(deps, "@angular/core")))
    || (x == "Next.js" && Truthy(deps, "next"))
    || (x == "Express" && Truthy(deps, "express"))
    || (x == "NestJS" && (Truthy(deps, "nestjs") || Truthy(deps, "@nestjs/core")))
  }

  lemma JsTagsSpec(tags: seq<string>, deps: map<string, bool>)
    ensures forall x :: x in JsTags(tags, deps) <==> x in tags || JsTagOf(deps, x)
  {
    var t1 := AddTag(tags, Truthy(deps, "react"), "React");
    AddTagSpec(tags, Truthy(deps, "react"), "React");
    var t2 := AddTag(t1, Truthy(deps, "vue"), "Vue");
    AddTagSpec(t1, Truthy(deps, "vue"), "Vue");
    var t3 := AddTag(t2, Truthy(deps, "angular") || Truthy(deps, "@angular/core"), "Angular");
    AddTagSpec(t2, Truthy(deps, "angular") || Truthy(deps, "@angular/core"), "Angular");
    var t4 := AddTag(t3, Truthy(deps, "next"), "Next.js");
    AddTagSpec(t3, Truthy(deps, "next"), "Next.js");
    var t5 := AddTag(t4, Truthy(deps, "express"), "Express");
    AddTagSpec(t4, Truthy(deps, "express"), "Express");
    AddTagSpec(t5, Truthy(deps, "nestjs") || Truthy(deps, "@nestjs/core"), "NestJS");
  }

  /** Only the framework list changes; a manifest that does not parse changes
      nothing; otherwise a tag is present afterwards exactly when it was
      before or one of its package names has a truthy entry. */
  lemma JsFrameworksSpec(s: Summary, m: Manifest)
    ensures JsFrameworks(s, m).(frameworks := s.frameworks) == s
    ensures m.Unparseable? ==> JsFrameworks(s, m) == s
    ensures m.Parsed? ==> forall x :: x in JsFrameworks(s, m).frameworks <==>
      x in s.frameworks || JsTagOf(MergedDependencies(m), x)
  {
    if m.Parsed? {
      JsTagsSpec(s.frameworks, MergedDependencies(m));
    }
  }

  /** A truthy `react` entry in `devDependencies`, or in `dependencies` when
      `devDependencies` has no `react` key, yields React. */
  lemma ReactDetected(s: Summary, m: Manifest)
    requires m.Parsed?
    requires Truthy(m.devDependencies, "react")
      || ("react" !in m.devDependencies && Truthy(m.dependencies, "react"))
    ensures "React" in JsFrameworks(s, m).frameworks
  {
    JsFrameworksSpec(s, m);
    assert JsTagOf(MergedDependencies(m), "React");
  }

  /** A `react` key in `devDependencies` with a falsy value hides a truthy
      one in `dependencies`: the spread lets the later object win. */
  lemma DevDependencyOverrides(s: Summary, m: Manifest)
    requires m.Parsed?
    requires "react" in m.devDependencies && !m.devDependencies["react"]
    requires "React" !in s.frameworks
    ensures "React" !in JsFrameworks(s, m).frameworks
  {
    JsFrameworksSpec(s, m);
  }

  /** The tests of one (lower-cased) line of requirements.txt. */
  function PyLineTags(tags: seq<string>, line: string): seq<string> {
    var t1 := AddTag(tags, Contains(line, "flask"), "Flask");
    var t2 := AddTag(t1, Contains(line, "django"), "Django");
    var t3 := AddTag(t2, Contains(line, "fastapi"), "FastAPI");
    var t4 := AddTag(t3, Contains(line, "pytorch"), "PyTorch");
    AddTag(t4, Contains(line, "tensorflow"), "TensorFlow")
  }

  /** The lines taken in order. */
  function PyTags(tags: seq<string>, lines: seq<string>): seq<string>
    decreases |lines|
  {
    if lines == [] then tags
    else PyLineTags(PyTags(tags, lines[..|lines| - 1]), lines[|lines| - 1])
  }

  /** `detectPythonFrameworks` */
  function PyFrameworks(s: Summary, lines: seq<string>): Summary {
    s.(frameworks := PyTags(s.frameworks, lines))
  }

  /** Which library names on which lines give which tags. */
  predicate PyTagOf(line: string, x: string) {
    (x == "Flask" && Contains(line, "flask"))
    || (x == "Django" && Contains(line, "django"))
    || (x == "FastAPI" && Contains(line, "fastapi"))
    || (x == "PyTorch" && Contains(line, "pytorch"))
    || (x == "TensorFlow" && Contains(line, "tensorflow"))
  }

  /** One line adds exactly the tags whose library it mentions. */
  lemma PyLineTagsSpec(tags: seq<string>, line: string)
    ensures forall x :: x in PyLineTags(tags, line) <==> x in tags || PyTagOf(line, x)
  {
    var t1 := AddTag(tags, Contains(line, "flask"), "Flask");
    AddTagSpec(tags, Contains(line, "flask"), "Flask");
    var t2 := AddTag(t1, Contains(line, "django"), "Django");
    AddTagSpec(t1, Contains(line, "django"), "Django");
    var t3 := AddTag(t2, Contains(line, "fastapi"), "FastAPI");
    AddTagSpec(t2, Contains(line, "fastapi"), "FastAPI");
    var t4 := AddTag(t3, Contains(line, "pytorch"), "PyTorch");
    AddTagSpec(t3, Contains(line, "pytorch"), "PyTorch");
    AddTagSpec(t4, Contains(line, "tensorflow"), "TensorFlow");
  }

  /** A tag is present afterwards exactly when it was before or some line
      mentions its library. */
  lemma {:induction false} PyTagsSpec(tags: seq<string>, lines: seq<string>)
    ensures forall x :: x in PyTags(tags, lines) <==>
      x in tags || exists k :: 0 <= k < |lines| && PyTagOf(lines[k], x)
    decreases |lines|
  {
    if lines != [] {
      var init := lines[..|lines| - 1];
      PyTagsSpec(tags, init);
      var last := lines[|lines| - 1];
      PyLineTagsSpec(PyTags(tags, init), last);
      forall x
        ensures x in PyTags(tags, lines) <==>
          x in tags || exists k :: 0 <= k < |lines| && PyTagOf(lines[k], x)
      {
        if exists k :: 0 <= k < |lines| && PyTagOf(lines[k], x) {
          var k :| 0 <= k < |lines| && PyTagOf(lines[k], x);
          if k < |lines| - 1 {
            assert init[k] == lines[k];
          }
        }
        if exists k :: 0 <= k < |init| && PyTagOf(init[k], x) {
          var k :| 0 <= k < |init| && PyTagOf(init[k], x);
          assert lines[k] == init[k];
        }
      }
    }
  }

  /** Only the framework list changes, and it gains exactly the tags of the
      libraries some line mentions. */
  lemma PyFrameworksSpec(s: Summary, lines: seq<string>)
    ensures PyFrameworks(s, lines).(frameworks := s.frameworks) == s
    ensures forall x :: x in PyFrameworks(s, lines).frameworks <==>
      x in s.frameworks || exists k :: 0 <= k < |lines| && PyTagOf(lines[k], x)
  {
    PyTagsSpec(s.frameworks, lines);
  }

  // ---------------------------------------------------------------------------
  // analyzeFiles
  // ---------------------------------------------------------------------------

  const CodeExtensions: seq<string> := [".py", ".js", ".jsx", ".ts", ".tsx", ".java", ".go", ".rs"]
  const ConfigExtensions: seq<string> := [".json", ".yml", ".yaml", ".toml", ".ini", ".env"]

  /** `exts.some(ext => name.endsWith(ext))` */
  predicate EndsWithAny(name: string, exts: seq<string>) {
    exists k :: 0 <= k < |exts| && HasSuffix(name, exts[k])
  }

  /** Every code extension ends in one of `y s x a o`. */
  lemma CodeLastChar(name: string)
    ensures EndsWithAny(name, CodeExtensions) ==>
      name != [] && name[|name| - 1] in {'y', 's', 'x', 'a', 'o'}
  {
    if EndsWithAny(name, CodeExtensions) {
      var k :| 0 <= k < |CodeExtensions| && HasSuffix(name, CodeExtensions[k]);
      SuffixLastChar(name, CodeExtensions[k]);
    }
  }

  /** Every configuration extension ends in one of `n l i v`. */
  lemma ConfigLastChar(name: string)
    ensures EndsWithAny(name, ConfigExtensions) ==>
      name != [] && name[|name| - 1] in {'n', 'l', 'i', 'v'}
  {
    if EndsWithAny(name, ConfigExtensions) {
      var k :| 0 <= k < |ConfigExtensions| && HasSuffix(name, ConfigExtensions[k]);
      SuffixLastChar(name, ConfigExtensions[k]);
    }
  }

  /** No name is both a code file and a configuration file. */
  lemma CodeAndConfigDisjoint(name: string)
    ensures !(EndsWithAny(name, CodeExtensions) && EndsWithAny(name, ConfigExtensions))
  {
    CodeLastChar(name);
    ConfigLastChar(name);
  }

  /** One `if (name.endsWith(...))` language branch: record the tag and scan
      the content with that language's patterns. */
  function LanguageStep(s: Summary, hit: bool, tag: string, content: string, lang: Lang): Summary {
    if hit then Structure(s.(languages := Insert(s.languages, tag)), MatchLines(Lines(content), lang)) else s
  }

  /** The six language branches of the `forEach` body, in order; they are
      not exclusive, but no lower-cased name ends in two of them. */
  function LanguagesStep(s: Summary, name: string, c: string): Summary {
    var s1 := LanguageStep(s, HasSuffix(name, ".py"), "Python", c, Python);
    var s2 := LanguageStep(s1, HasSuffix(name, ".js") || HasSuffix(name, ".jsx"), "JavaScript", c, JavaScript);
    var s3 := LanguageStep(s2, HasSuffix(name, ".ts") || HasSuffix(name, ".tsx"), "TypeScript", c, TypeScript);
    var s4 := LanguageStep(s3, HasSuffix(name, ".java"), "Java", c, Java);
    var s5 := LanguageStep(s4, HasSuffix(name, ".go"), "Go", c, Go);
    LanguageStep(s5, HasSuffix(name, ".rs"), "Rust", c, Rust)
  }

  /** `package.json`: the flag, the Node.js tag, then its dependencies. */
  function PackageJsonStep(s: Summary, name: string, c: string, parse: string -> Manifest): Summary {
    if name == "package.json" then
      JsFrameworks(s.(hasPackageJson := true, frameworks := Insert(s.frameworks, "Node.js")), parse(c))
    else s
  }

  /** `requirements.txt`: the flag, then the lower-cased lines. */
  function RequirementsStep(s: Summary, name: string, c: string): Summary {
    if name == "requirements.txt" then PyFrameworks(s.(hasRequirementsTxt := true), Lines(Lower(c)))
    else s
  }

  /** `pom.xml`: the flag and the Maven tag. */
  function PomStep(s: Summary, name: string): Summary {
    if name == "pom.xml" then s.(hasPomXml := true, frameworks := Insert(s.frameworks, "Maven"))
    else s
  }

  /** `dockerfile`, or any name starting with `docker`: the flag and the
      Docker tag. */
  function DockerStep(s: Summary, name: string): Summary {
    if name == "dockerfile" || HasPrefix(name, "docker") then
      s.(hasDockerfile := true, frameworks := Insert(s.frameworks, "Docker"))
    else s
  }

  /** The four tool branches, in order; they are not exclusive. */
  function ToolsStep(s: Summary, name: string, c: string, parse: string -> Manifest): Summary {
    DockerStep(PomStep(RequirementsStep(PackageJsonStep(s, name, c, parse), name, c), name), name)
  }

  /** The two file-kind counters. */
  function KindsStep(s: Summary, name: string): Summary {
    var s1 := if EndsWithAny(name, CodeExtensions) then s.(codeFiles := s.codeFiles + 1) else s;
    if EndsWithAny(name, ConfigExtensions) then s1.(configFiles := s1.configFiles + 1) else s1
  }

  /** `analysis.totalLines += lines.length` */
  function LinesStep(s: Summary, c: string): Summary {
    s.(totalLines := s.totalLines + |Lines(c)|)
  }

  /** The body of `files.forEach` in `analyzeFiles`, for one file: the name
      is lower-cased, the content's lines are counted, then come the
      language, tool and file-kind branches. */
  function FileStep(s: Summary, f: SourceFile, parse: string -> Manifest): Summary {
    var name := Lower(f.name);
    var s0 := LinesStep(s, f.content);
    KindsStep(ToolsStep(LanguagesStep(s0, name, f.content), name, f.content, parse), name)
  }

  /** The files taken in order. */
  function FoldFiles(s: Summary, files: seq<SourceFile>, parse: string -> Manifest): Summary
    decreases |files|
  {
    if files == [] then s
    else FileStep(FoldFiles(s, files[..|files| - 1], parse), files[|files| - 1], parse)
  }

  /** What `analyzeFiles` returns. */
  function Analyze(files: seq<SourceFile>, parse: string -> Manifest): Summary {
    FoldFiles(Initial(|files|), files, parse)
  }

  /** The four counters of a summary agree. */
  predicate SameCounts(a: Summary, b: Summary) {
    a.totalFiles == b.totalFiles && a.codeFiles == b.codeFiles
    && a.configFiles == b.configFiles && a.totalLines == b.totalLines
  }

  lemma LanguageStepCounts(s: Summary, hit: bool, tag: string, content: string, lang: Lang)
    ensures SameCounts(LanguageStep(s, hit, tag, content, lang), s)
  {
    if hit {
      StructureFrame(s.(languages := Insert(s.languages, tag)), MatchLines(Lines(content), lang));
    }
  }

  /** Language detection and code scanning leave the counters alone. */
  lemma LanguagesStepCounts(s: Summary, name: string, c: string)
    ensures SameCounts(LanguagesStep(s, name, c), s)
  {
    var s1 := LanguageStep(s, HasSuffix(name, ".py"), "Python", c, Python);
    LanguageStepCounts(s, HasSuffix(name, ".py"), "Python", c, Python);
    var s2 := LanguageStep(s1, HasSuffix(name, ".js") || HasSuffix(name, ".jsx"), "JavaScript", c, JavaScript);
    LanguageStepCounts(s1, HasSuffix(name, ".js") || HasSuffix(name, ".jsx"), "JavaScript", c, JavaScript);
    var s3 := LanguageStep(s2, HasSuffix(name, ".ts") || HasSuffix(name, ".tsx"), "TypeScript", c, TypeScript);
    LanguageStepCounts(s2, HasSuffix(name, ".ts") || HasSuffix(name, ".tsx"), "TypeScript", c, TypeScript);
    var s4 := LanguageStep(s3, HasSuffix(name, ".java"), "Java", c, Java);
    LanguageStepCounts(s3, HasSuffix(name, ".java"), "Java", c, Java);
    var s5 := LanguageStep(s4, HasSuffix(name, ".go"), "Go", c, Go);
    LanguageStepCounts(s4, HasSuffix(name, ".go"), "Go", c, Go);
    LanguageStepCounts(s5, HasSuffix(name, ".rs"), "Rust", c, Rust);
  }

  /** Tool detection leaves the counters alone. */
  lemma ToolsStepCounts(s: Summary, name: string, c: string, parse: string -> Manifest)
    ensures SameCounts(ToolsStep(s, name, c, parse), s)
  {
    JsFrameworksSpec(s.(hasPackageJson := true, frameworks := Insert(s.frameworks, "Node.js")), parse(c));
  }

  /** One file leaves the file count alone, adds the number of its
      `\n`-separated segments to the lines, which is at least one (a split
      has at least one segment), and counts as code or configuration at most
      once. */
  lemma FileStepCounts(s: Summary, f: SourceFile, parse: string -> Manifest)
    ensures FileStep(s, f, parse).totalFiles == s.totalFiles
    ensures FileStep(s, f, parse).totalLines == s.totalLines + |Lines(f.content)|
    ensures FileStep(s, f, parse).totalLines >= s.totalLines + 1
    ensures FileStep(s, f, parse).codeFiles + FileStep(s, f, parse).configFiles
            <= s.codeFiles + s.configFiles + 1
  {
    var name := Lower(f.name);
    var s0 := LinesStep(s, f.content);
    LanguagesStepCounts(s0, name, f.content);
    var s1 := LanguagesStep(s0, name, f.content);
    ToolsStepCounts(s1, name, f.content, parse);
    CodeAndConfigDisjoint(name);
  }

  /** Over any sequence of files: the file count is untouched, every file adds
      at least one line, and code plus configuration files grow by at most
      the number of files. */
  lemma {:induction false} FoldFilesCounts(s: Summary, files: seq<SourceFile>, parse: string -> Manifest)
    ensures FoldFiles(s, files, parse).totalFiles == s.totalFiles
    ensures FoldFiles(s, files, parse).totalLines >= s.totalLines + |files|
    ensures FoldFiles(s, files, parse).codeFiles + FoldFiles(s, files, parse).configFiles
            <= s.codeFiles + s.configFiles + |files|
    decreases |files|
  {
    if files != [] {
      FoldFilesCounts(s, files[..|files| - 1], parse);
      FileStepCounts(FoldFiles(s, files[..|files| - 1], parse), files[|files| - 1], parse);
    }
  }

  /** `totalFiles` is the number of files; there are at least as many lines
      as files; code and configuration files together never exceed the
      files. */
  lemma AnalyzeCounts(files: seq<SourceFile>, parse: string -> Manifest)
    ensures Analyze(files, parse).totalFiles == |files|
    ensures Analyze(files, parse).totalLines >= |files|
    ensures Analyze(files, parse).codeFiles + Analyze(files, parse).configFiles
            <= Analyze(files, parse).totalFiles
  {
    FoldFilesCounts(Initial(|files|), files, parse);
  }

  /** The summary object that `analyzeFiles` updates in place. */
  class Analysis {
    var languages: seq<string>
    var frameworks: seq<string>
    var hasPackageJson: bool
    var hasRequirementsTxt: bool
    var hasPomXml: bool
    var hasDockerfile: bool
    var totalFiles: nat
    var codeFiles: nat
    var configFiles: nat
    var totalLines: nat
    var classes: seq<string>
    var functions: seq<string>
    var imports: seq<string>
    var complexity: nat

    /** The object's fields as a value. */
    function Snapshot(): Summary
      reads this
    {
      Summary(languages, frameworks, hasPackageJson, hasRequirementsTxt, hasPomXml, hasDockerfile,
              totalFiles, codeFiles, configFiles, totalLines, classes, functions, imports, complexity)
    }

    constructor (fileCount: nat)
      ensures Snapshot() == Initial(fileCount)
    {
      languages, frameworks := [], [];
      hasPackageJson, hasRequirementsTxt, hasPomXml, hasDockerfile := false, false, false, false;
      totalFiles, codeFiles, configFiles, totalLines := fileCount, 0, 0, 0;
      classes, functions, imports := [], [], [];
      complexity := 0;
    }

    /** `analysis.complexity++` when the trimmed line holds a branch keyword. */
    method CountBranch(trimmed: string)
      modifies this`complexity
      ensures complexity == old(complexity) + (if HasBranchKeyword(trimmed) then 1 else 0)
    {
      if HasBranchKeyword(trimmed) {
        complexity := complexity + 1;
      }
    }

    /** `if (classMatch) analysis.classes.push(classMatch[1])` */
    method PushClass(m: Option<string>)
      modifies this`classes
      ensures classes == old(classes) + Captured(m)
    {
      if m.Some? { classes := classes + [m.value]; }
    }

    /** The same for a function or method name. */
    method PushFunction(m: Option<string>)
      modifies this`functions
      ensures functions == old(functions) + Captured(m)
    {
      if m.Some? { functions := functions + [m.value]; }
    }

    /** The same for an imported name. */
    method PushImport(m: Option<string>)
      modifies this`imports
      ensures imports == old(imports) + Captured(m)
    {
      if m.Some? { imports := imports + [m.value]; }
    }

    /** The `language === 'python'` branch. */
    method ScanPython(trimmed: string)
      modifies this`classes, this`functions, this`imports
      ensures Names(classes, functions, imports) == AppendNames(old(Names(classes, functions, imports)), PythonNames(trimmed))
    {
      PushClass(PyClass(trimmed));
      PushFunction(PyDef(trimmed));
      PushImport(PyImport(trimmed));
    }

    /** The `javascript` / `typescript` branch: both function patterns are
        matched before either is pushed. */
    method ScanScript(trimmed: string)
      modifies this`classes, this`functions, this`imports
      ensures Names(classes, functions, imports) == AppendNames(old(Names(classes, functions, imports)), ScriptNames(trimmed))
    {
      PushClass(JsClass(trimmed));
      var funcMatch := JsFunction(trimmed);
      var arrowMatch := JsArrow(trimmed);
      PushFunction(funcMatch);
      PushFunction(arrowMatch);
      PushImport(JsImport(trimmed));
    }

    /** The `language === 'java'` branch. */
    method ScanJava(trimmed: string)
      modifies this`classes, this`functions, this`imports
      ensures Names(classes, functions, imports) == AppendNames(old(Names(classes, functions, imports)), JavaNames(trimmed))
    {
      PushClass(JavaClass(trimmed));
      PushFunction(JavaMethod(trimmed));
      PushImport(JavaImport(trimmed));
    }

    /** The body of `lines.forEach` in `analyzeCodeStructure`. */
    method ScanLine(line: string, language: Lang)
      modifies this
      ensures Snapshot() == Record(old(Snapshot()), MatchLine(line, language))
    {
      var trimmed := Trim(line);
      CountBranch(trimmed);
      ScanNames(trimmed, language);
    }

    /** The language branches on a trimmed line. */
    method ScanNames(trimmed: string, language: Lang)
      modifies this`classes, this`functions, this`imports
      ensures Names(classes, functions, imports) == AppendNames(old(Names(classes, functions, imports)), NamesOf(trimmed, language))
    {
      if language == Python {
        ScanPython(trimmed);
      } else if language == JavaScript || language == TypeScript {
        ScanScript(trimmed);
      } else if language == Java {
        ScanJava(trimmed);
      }
    }

    /** `analyzeCodeStructure(content, language, analysis)` */
    method AnalyzeCodeStructure(content: string, language: Lang)
      modifies this
      ensures Snapshot() == Structure(old(Snapshot()), MatchLines(Lines(content), language))
    {
      var lines := Lines(content);
      for i := 0 to |lines|
        invariant Snapshot() == Structure(old(Snapshot()), MatchLines(lines[..i], language))
      {
        StructureLine(old(Snapshot()), lines, i, language);
        ScanLine(lines[i], language);
      }
      assert lines[..|lines|] == lines;
    }

    /** `analysis.frameworks.add(tag)` when `cond` holds. */
    method AddFrameworkWhen(cond: bool, tag: string)
      modifies this`frameworks
      ensures frameworks == AddTag(old(frameworks), cond, tag)
    {
      if cond && tag !in frameworks {
        frameworks := frameworks + [tag];
      }
    }

    /** `detectJSFrameworks(content, analysis)`, with `JSON.parse(content)`
        already evaluated to `manifest`. */
    method DetectJSFrameworks(manifest: Manifest)
      modifies this`frameworks
      ensures Snapshot() == JsFrameworks(old(Snapshot()), manifest)
    {
      if manifest.Parsed? {
        AddJsTags(MergedDependencies(manifest));
      }
    }

    /** The six tests of `detectJSFrameworks` on the merged dependencies. */
    method AddJsTags(deps: map<string, bool>)
      modifies this`frameworks
      ensures frameworks == JsTags(old(frameworks), deps)
    {
      AddFrameworkWhen(Truthy(deps, "react"), "React");
      AddFrameworkWhen(Truthy(deps, "vue"), "Vue");
      AddFrameworkWhen(Truthy(deps, "angular") || Truthy(deps, "@angular/core"), "Angular");
      AddFrameworkWhen(Truthy(deps, "next"), "Next.js");
      AddFrameworkWhen(Truthy(deps, "express"), "Express");
      AddFrameworkWhen(Truthy(deps, "nestjs") || Truthy(deps, "@nestjs/core"), "NestJS");
    }

    /** The body of `lines.forEach` in `detectPythonFrameworks`. */
    method ScanRequirementsLine(line: string)
      modifies this`frameworks
      ensures frameworks == PyLineTags(old(frameworks), line)
    {
      AddFrameworkWhen(Contains(line, "flask"), "Flask");
      AddFrameworkWhen(Contains(line, "django"), "Django");
      AddFrameworkWhen(Contains(line, "fastapi"), "FastAPI");
      AddFrameworkWhen(Contains(line, "pytorch"), "PyTorch");
      AddFrameworkWhen(Contains(line, "tensorflow"), "TensorFlow");
    }

    /** `detectPythonFrameworks(content, analysis)` */
    method DetectPythonFrameworks(content: string)
      modifies this`frameworks
      ensures Snapshot() == PyFrameworks(old(Snapshot()), Lines(Lower(content)))
    {
      var lines := Lines(Lower(content));
      for i := 0 to |lines|
        invariant Snapshot() == old(Snapshot()).(frameworks := PyTags(old(frameworks), lines[..i]))
      {
        assert lines[..i + 1][..i] == lines[..i];
        ScanRequirementsLine(lines[i]);
      }
      assert lines[..|lines|] == lines;
    }

    /** One language branch of the `forEach` body. */
    method DetectLanguage(hit: bool, tag: string, content: string, lang: Lang)
      modifies this
      ensures Snapshot() == LanguageStep(old(Snapshot()), hit, tag, content, lang)
    {
      if hit {
        if tag !in languages {
          languages := languages + [tag];
        }
        AnalyzeCodeStructure(content, lang);
      }
    }

    /** The six language branches. */
    method DetectLanguages(name: string, content: string)
      modifies this
      ensures Snapshot() == LanguagesStep(old(Snapshot()), name, content)
    {
      DetectLanguage(HasSuffix(name, ".py"), "Python", content, Python);
      DetectLanguage(HasSuffix(name, ".js") || HasSuffix(name, ".jsx"), "JavaScript", content, JavaScript);
      DetectLanguage(HasSuffix(name, ".ts") || HasSuffix(name, ".tsx"), "TypeScript", content, TypeScript);
      DetectLanguage(HasSuffix(name, ".java"), "Java", content, Java);
      DetectLanguage(HasSuffix(name, ".go"), "Go", content, Go);
      DetectLanguage(HasSuffix(name, ".rs"), "Rust", content, Rust);
    }

    method DetectPackageJson(name: string, content: string, parse: string -> Manifest)
      modifies this
      ensures Snapshot() == PackageJsonStep(old(Snapshot()), name, content, parse)
    {
      if name == "package.json" {
        hasPackageJson := true;
        AddFrameworkWhen(true, "Node.js");
        DetectJSFrameworks(parse(content));
      }
    }

    method DetectRequirements(name: string, content: string)
      modifies this
      ensures Snapshot() == RequirementsStep(old(Snapshot()), name, content)
    {
      if name == "requirements.txt" {
        hasRequirementsTxt := true;
        DetectPythonFrameworks(content);
      }
    }

    method DetectPom(name: string)
      modifies this
      ensures Snapshot() == PomStep(old(Snapshot()), name)
    {
      if name == "pom.xml" {
        hasPomXml := true;
        AddFrameworkWhen(true, "Maven");
      }
    }

    method DetectDocker(name: string)
      modifies this
      ensures Snapshot() == DockerStep(old(Snapshot()), name)
    {
      if name == "dockerfile" || HasPrefix(name, "docker") {
        hasDockerfile := true;
        AddFrameworkWhen(true, "Docker");
      }
    }

    /** The four tool branches. */
    method DetectTools(name: string, content: string, parse: string -> Manifest)
      modifies this
      ensures Snapshot() == ToolsStep(old(Snapshot()), name, content, parse)
    {
      DetectPackageJson(name, content, parse);
      DetectRequirements(name, content);
      DetectPom(name);
      DetectDocker(name);
    }

    /** The code and configuration counters. */
    method CountKinds(name: string)
      modifies this
      ensures Snapshot() == KindsStep(old(Snapshot()), name)
    {
      if EndsWithAny(name, CodeExtensions) {
        codeFiles := codeFiles + 1;
      }
      if EndsWithAny(name, ConfigExtensions) {
        configFiles := configFiles + 1;
      }
    }

    /** `analysis.totalLines += content.split('\n').length` */
    method CountLines(content: string)
      modifies this
      ensures Snapshot() == LinesStep(old(Snapshot()), content)
    {
      var lines := Lines(content);
      totalLines := totalLines + |lines|;
    }

    /** The body of `files.forEach` for one file. */
    method AddFile(f: SourceFile, parse: string -> Manifest)
      modifies this
      ensures Snapshot() == FileStep(old(Snapshot()), f, parse)
    {
      var name := Lower(f.name);
      var content := f.content;
      CountLines(content);
      DetectLanguages(name, content);
      DetectTools(name, content, parse);
      CountKinds(name);
    }
  }

  /** `analyzeFiles(files)`; `parse` stands for `JSON.parse` followed by the
      property reads of `detectJSFrameworks`. */
  method AnalyzeFiles(files: seq<SourceFile>, parse: string -> Manifest) returns (result: Summary)
    ensures result == Analyze(files, parse)
    ensures result.totalFiles == |files|
    ensures result.totalLines >= |files|
    ensures result.codeFiles + result.configFiles <= result.totalFiles
  {
    var analysis := new Analysis(|files|);
    for i := 0 to |files|
      invariant analysis.Snapshot() == FoldFiles(Initial(|files|), files[..i], parse)
    {
      assert files[..i + 1][..i] == files[..i];
      analysis.AddFile(files[i], parse);
    }
    assert files[..|files|] == files;
    result := analysis.Snapshot();
    AnalyzeCounts(files, parse);
  }

  // ---------------------------------------------------------------------------
  // calculateQualityScore
  // ---------------------------------------------------------------------------

  const QualityKeywords: seq<string> := [
    "installation", "setup", "usage", "features", "dependencies",
    "requirements", "api", "configuration", "examples", "contributing"
  ]

  /** How many of `keywords` occur in `text`. */
  function KeywordHits(text: string, keywords: seq<string>): (n: nat)
    ensures n <= |keywords|
    decreases |keywords|
  {
    if keywords == [] then 0
    else KeywordHits(text, keywords[..|keywords| - 1]) + (if Contains(text, keywords[|keywords| - 1]) then 1 else 0)
  }

  /** `messages.map(m => m.content.toLowerCase()).join(' ')` */
  function ConversationText(messages: seq<string>): string {
    Join(LowerAll(messages), " ")
  }

  function LowerAll(messages: seq<string>): (r: seq<string>)
    ensures |r| == |messages| && forall k :: 0 <= k < |r| ==> r[k] == Lower(messages[k])
  {
    seq(|messages|, k requires 0 <= k < |messages| => Lower(messages[k]))
  }

  function Min(a: int, b: int): int {
    if a < b then a else b
  }

  /** The score of `calculateQualityScore`: a base of ten per message capped
      at thirty, five per keyword found in the lower-cased conversation, ten
      for a response longer than a hundred characters, five for a code fence,
      capped at a hundred. With ten keywords the cap is never reached: the
      score is at most 95. */
  function QualityScore(messages: seq<string>, latest: string): (score: int)
    ensures 0 <= score <= 95
  {
    var base := Min(|messages| * 10, 30);
    var keywordScore := 5 * KeywordHits(ConversationText(messages), QualityKeywords);
    var lengthScore := if |latest| > 100 then 10 else 0;
    var codeScore := if Contains(latest, "```") then 5 else 0;
    Min(base + keywordScore + lengthScore + codeScore, 100)
  }

  /** `calculateQualityScore(messages, latestResponse)` */
  method CalculateQualityScore(messages: seq<string>, latest: string) returns (score: int)
    ensures score == QualityScore(messages, latest)
    ensures 0 <= score <= 95
  {
    score := 0;
    score := score + Min(|messages| * 10, 30);
    var allContent := ConversationText(messages);
    for i := 0 to |QualityKeywords|
      invariant score == Min(|messages| * 10, 30) + 5 * KeywordHits(allContent, QualityKeywords[..i])
    {
      assert QualityKeywords[..i + 1][..i] == QualityKeywords[..i];
      if Contains(allContent, QualityKeywords[i]) {
        score := score + 5;
      }
    }
    assert QualityKeywords[..|QualityKeywords|] == QualityKeywords;
    if |latest| > 100 {
      score := score + 10;
    }
    if Contains(latest, "```") {
      score := score + 5;
    }
    score := Min(score, 100);
  }

  lemma {:induction false} KeywordHitsMonotone(a: string, b: string, keywords: seq<string>)
    requires forall k :: 0 <= k < |keywords| && Contains(a, keywords[k]) ==> Contains(b, keywords[k])
    ensures KeywordHits(a, keywords) <= KeywordHits(b, keywords)
    decreases |keywords|
  {
    if keywords != [] {
      var init := keywords[..|keywords| - 1];
      assert forall k :: 0 <= k < |init| ==> init[k] == keywords[k];
      KeywordHitsMonotone(a, b, init);
    }
  }

  /** Another message never lowers the score: the base grows up to its cap,
      and every keyword of the shorter conversation is still in the longer. */
  lemma QualityScoreMonotone(messages: seq<string>, m: string, latest: string)
    ensures QualityScore(messages, latest) <= QualityScore(messages + [m], latest)
  {
    var text := ConversationText(messages);
    var text' := ConversationText(messages + [m]);
    assert LowerAll(messages + [m]) == LowerAll(messages) + [Lower(m)];
    forall k | 0 <= k < |QualityKeywords| && Contains(text, QualityKeywords[k])
      ensures Contains(text', QualityKeywords[k])
    {
      if messages != [] {
        JoinSnoc(LowerAll(messages), Lower(m), " ");
        ContainsInLeft(text, " " + Lower(m), QualityKeywords[k]);
        assert text' == text + (" " + Lower(m));
      }
    }
    KeywordHitsMonotone(text, text', QualityKeywords);
  }

  // ---------------------------------------------------------------------------
  // generateSmartSuggestions
  // ---------------------------------------------------------------------------

  const SuggestPackageJson := "Add package.json with dependencies"
  const SuggestRequirements := "Add requirements.txt file"
  const SuggestDockerfile := "Consider adding Dockerfile for easy deployment"
  const SuggestGitignore := "Add .gitignore file"
  const SuggestLicense := "Add LICENSE file"
  const SuggestContributing := "Add CONTRIBUTING.md for collaborators"

  /** `generateSmartSuggestions(fileAnalysis)`: up to three conditional
      suggestions in rule order, then the three fixed ones. */
  method GenerateSmartSuggestions(a: Summary) returns (suggestions: seq<string>)
    ensures SuggestPackageJson in suggestions <==> !a.hasPackageJson && "JavaScript" in a.languages
    ensures SuggestRequirements in suggestions <==> !a.hasRequirementsTxt && "Python" in a.languages
    ensures SuggestDockerfile in suggestions <==> !a.hasDockerfile && a.codeFiles > 5
    ensures 3 <= |suggestions| <= 6
    ensures suggestions[|suggestions| - 3..] == [SuggestGitignore, SuggestLicense, SuggestContributing]
    ensures SuggestPackageJson in suggestions ==> suggestions[0] == SuggestPackageJson
    ensures |suggestions| == 3 + (if !a.hasPackageJson && "JavaScript" in a.languages then 1 else 0)
      + (if !a.hasRequirementsTxt && "Python" in a.languages then 1 else 0)
      + (if !a.hasDockerfile && a.codeFiles > 5 then 1 else 0)
    ensures forall i, j :: 0 <= i < j < |suggestions| && suggestions[i] == SuggestDockerfile ==>
      suggestions[j] != SuggestRequirements
  {
    suggestions := [];
    if !a.hasPackageJson && "JavaScript" in a.languages {
      suggestions := suggestions + [SuggestPackageJson];
    }
    if !a.hasRequirementsTxt && "Python" in a.languages {
      suggestions := suggestions + [SuggestRequirements];
    }
    if !a.hasDockerfile && a.codeFiles > 5 {
      suggestions := suggestions + [SuggestDockerfile];
    }
    suggestions := suggestions + [SuggestGitignore];
    suggestions := suggestions + [SuggestLicense];
    suggestions := suggestions + [SuggestContributing];
  }
}
