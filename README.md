# Documentation assistant core, modelled in Dafny

This project models the logic at the heart of a documentation assistant. The
assistant reads an uploaded code base and asks the user about it. It then
scores the conversation and writes documentation files. The model covers five
parts of it:

- **Project analysis** (`supabase/functions/analyze-code/index.ts`). One summary
  object is built from the uploaded files. Its fields are language tags,
  framework tags, tool flags, file and line counters, a complexity counter, and
  the class, function and import names found line by line. `analyzeFiles`,
  `analyzeCodeStructure`, `detectJSFrameworks` and `detectPythonFrameworks`
  build it in place. `calculateQualityScore` scores a conversation.
  `generateSmartSuggestions` lists what the project lacks.
- **Dependency graph** (`src/components/CodeFlowVisualization.tsx`).
  - `parseFileContent` runs global regular-expression scans over each file's
    text. They find import specifiers and exported names.
  - `buildGraph` puts one node per file on a grid of `ceil(sqrt(n))` columns.
  - It adds an edge from file `i` to file `t` for every import of `i` whose
    normalised form matches `t`'s name.
- **Page navigation** (`src/pages/Index.tsx`). A history of locations with an
  index supports navigate, back, forward and home.
- **Answer routing** (`src/pages/Index.tsx`). A keyword chain files the user's
  answer under a field of the conversation data. The reported quality score
  picks which documents are produced.
- **Score badge** (`src/components/QualityScore.tsx`). A score gets one of four
  labels and one hint line.

## Layout

- `wrappers.dfy`: `Option`.
- `strings.dfy`: the JavaScript string operations the source relies on:
  - `includes`, `startsWith`, `endsWith`;
  - `split` and `join`, `split(sep)[0]`, `split(sep).pop()`;
  - `trim`, ASCII `toLowerCase`, `replace` with a character class;
  - runs of a character class, which are the building block of every regular
    expression in the model.
- `line_patterns.dfy`: the anchored per-line regular expressions of
  `analyzeCodeStructure`, each written as a deterministic scanner.
- `analyzer.dfy`:
  - the summary as a datatype `Summary`, and as a class `Analysis` whose
    methods update it in place;
  - pure functions on `Summary` that specify each method;
  - lemmas about whole analyses;
  - the quality score and the suggestions.
- `import_scan.dfy`: the `/g` regular expressions of `parseFileContent` as
  leftmost-match scanners. `CollectMatches` is the `while (exec)` loop that
  pushes the captures.
- `code_flow.dfy`:
  - the file type;
  - parsing;
  - import normalisation and the edge rule;
  - integer `ceil(sqrt n)` and the grid;
  - `BuildGraph`, with the two nested loops;
  - the soundness, completeness and count lemmas of the edges;
  - the component's state as a class.
- `index_page.dfy`:
  - navigation, as functions on `NavState` and a class `Navigator`;
  - answer routing;
  - the score update and document choice.
- `quality_badge.dfy`: the score bands and the hint.

The graph's edge rule has two halves. `CodeFlowVisualization.tsx:139` tests
whether the normalised import contains `name.split('.')[0]`, the first
`.`-segment of the target's name. `CodeFlow.Matches` is that test.
`CodeFlow.DotNameMatchesEverything` records a consequence of it: a file whose
name starts with `.` matches every import.

## Model

| member | source | states |
|---|---|---|
| `Strings.Lower` | supabase/functions/analyze-code/index.ts:171 | lower-casing keeps the length and maps each character through ASCII `toLowerCase` |
| `Strings.RemoveChars` | src/components/CodeFlowVisualization.tsx:135 | the result holds only characters of the input outside the removed set; an input without them is returned unchanged; a one-character input is dropped exactly when it is in the set |
| `Strings.RemoveCharsConcat` | src/components/CodeFlowVisualization.tsx:135 | removal distributes over concatenation, so with the one-character case every character outside the set is kept, in order |
| `Strings.ContainsIff` | supabase/functions/analyze-code/index.ts:247-248 | `includes(p)` holds exactly when `p` occurs at some index |
| `Strings.ContainsInLeft` | supabase/functions/analyze-code/index.ts:428-430 | an occurrence in `a` is an occurrence in `a + b` |
| `Strings.ContainsInRight` | supabase/functions/analyze-code/index.ts:428-430 | an occurrence in `b` is an occurrence in `a + b` |
| `Strings.ContainsEmpty` | supabase/functions/analyze-code/index.ts:247 | every string includes the empty string |
| `Strings.Split` | supabase/functions/analyze-code/index.ts:175 | `split` never returns an empty list |
| `Strings.SplitLength` | supabase/functions/analyze-code/index.ts:175-176 | `split(sep)` has one more segment than there are separators |
| `Strings.SplitSegments` | supabase/functions/analyze-code/index.ts:175 | no segment contains the separator |
| `Strings.JoinSplit` | supabase/functions/analyze-code/index.ts:175 | joining the segments with the separator gives back the input |
| `Strings.JoinSnoc` | supabase/functions/analyze-code/index.ts:428 | joining one more part appends the separator and the part |
| `Strings.SplitWithoutSeparator` | src/components/CodeFlowVisualization.tsx:28 | a string without the separator splits into itself alone |
| `Strings.CountCharZero` | src/components/CodeFlowVisualization.tsx:28 | no occurrence of a character is a count of zero, and back |
| `Strings.FirstSegmentSpec` | src/components/CodeFlowVisualization.tsx:139 | `split(sep)[0]` is a prefix without the separator, ending at the first separator or at the end |
| `Strings.LastSegmentSpec` | src/components/CodeFlowVisualization.tsx:28 | `split(sep).pop()` is a suffix without the separator, starting after the last separator, and the whole string when there is none |
| `Strings.LastSegmentAfter` | src/components/CodeFlowVisualization.tsx:135 | `split(sep).pop()` of `a + sep + b`, with no separator in `b`, is `b` |
| `Strings.SuffixAvoids` | src/components/CodeFlowVisualization.tsx:135 | a position holding the separator lies before any separator-free suffix |
| `Strings.LastSegmentTail` | src/components/CodeFlowVisualization.tsx:135 | dropping a first character before a later separator does not change the last segment |
| `Strings.TrimLeftSpec` | supabase/functions/analyze-code/index.ts:244 | the left trim is a suffix that starts with a non-space, and only spaces were removed |
| `Strings.TrimRightSpec` | supabase/functions/analyze-code/index.ts:244 | the right trim is a prefix that ends with a non-space, and only spaces were removed |
| `Strings.TrimSpec` | supabase/functions/analyze-code/index.ts:244 | `trim` is the slice between leading and trailing white space, begins and ends with a non-space, and leaves a trimmed string alone |
| `Strings.InsertSpec` | supabase/functions/analyze-code/index.ts:154-155 | `Set.add` keeps earlier members in order, makes the new one a member, adds nothing else, and changes nothing when it is present |
| `Strings.RunEndSpec` | supabase/functions/analyze-code/index.ts:255 | a greedy character-class run covers only class members and stops at the first non-member |
| `Strings.RunEndIs` | supabase/functions/analyze-code/index.ts:255 | any end satisfying both run conditions is the run's end |
| `Strings.RunSlice` | supabase/functions/analyze-code/index.ts:255 | every character of a run is in its class |
| `Strings.WordCharIsNotSpace` | supabase/functions/analyze-code/index.ts:255 | `\w` and `\s` are disjoint |
| `Strings.SuffixLastChar` | supabase/functions/analyze-code/index.ts:224 | a string ending in a nonempty suffix ends in that suffix's last character |
| `LinePatterns.KeywordNameSpec` | supabase/functions/analyze-code/index.ts:255 | a `kw\s+(\w+)` match starts with the keyword and captures a nonempty word |
| `LinePatterns.SkipKeyword` | supabase/functions/analyze-code/index.ts:267 | skipping an optional `(?:kw\s+)?` stays inside the line |
| `LinePatterns.SkipKeywordSpec` | supabase/functions/analyze-code/index.ts:267 | when something was skipped, it was the keyword and at least one space |
| `LinePatterns.PyClassSpec` | supabase/functions/analyze-code/index.ts:255 | `^class\s+(\w+)` matches only lines starting with `class` and captures a nonempty word |
| `LinePatterns.PyDefSpec` | supabase/functions/analyze-code/index.ts:259 | `^def\s+(\w+)` matches only lines starting with `def` and captures a nonempty word |
| `LinePatterns.PyImportStart` | supabase/functions/analyze-code/index.ts:263 | the optional `from X` prefix is skipped only on lines starting with `from` |
| `LinePatterns.PyImportListSpec` | supabase/functions/analyze-code/index.ts:263 | the captured import list is nonempty and made of word characters, commas and spaces |
| `LinePatterns.PyImportSpec` | supabase/functions/analyze-code/index.ts:263-264 | the recorded import is the trimmed first comma segment: no comma, no space at either end |
| `LinePatterns.TrimNoNewChars` | supabase/functions/analyze-code/index.ts:264 | trimming introduces no character |
| `LinePatterns.JsClassSpec` | supabase/functions/analyze-code/index.ts:267 | the JS class pattern captures a nonempty word |
| `LinePatterns.JsFunctionSpec` | supabase/functions/analyze-code/index.ts:271 | the JS function pattern captures a nonempty word |
| `LinePatterns.JsArrowSpec` | supabase/functions/analyze-code/index.ts:272 | the arrow-function pattern captures a nonempty word |
| `LinePatterns.JsImportSpec` | supabase/functions/analyze-code/index.ts:277 | the JS import pattern matches only lines starting with `import` and captures a nonempty quote-free module name |
| `LinePatterns.JavaClassSpec` | supabase/functions/analyze-code/index.ts:281 | the Java class pattern captures a nonempty word |
| `LinePatterns.JavaModifierEnd` | supabase/functions/analyze-code/index.ts:285 | the access-modifier prefix is found only on lines starting with `public`, `private` or `protected` |
| `LinePatterns.MethodTailSpec` | supabase/functions/analyze-code/index.ts:285 | the method-name part of the pattern captures a nonempty word |
| `LinePatterns.JavaMethodSpec` | supabase/functions/analyze-code/index.ts:285 | a Java method match starts with an access modifier and captures a nonempty word |
| `LinePatterns.JavaImportSpec` | supabase/functions/analyze-code/index.ts:289 | `^import\s+([\w.]+);` captures a nonempty run of word characters and dots, on lines starting with `import` |
| `LinePatterns.KeywordNameOf` | supabase/functions/analyze-code/index.ts:255 | a line `kw`, spaces, a word and a non-word character captures exactly that word |
| `LinePatterns.PyClassOf` | supabase/functions/analyze-code/index.ts:255 | `class Foo…` captures exactly `Foo` |
| `LinePatterns.FirstSegmentOf` | supabase/functions/analyze-code/index.ts:264 | the first segment of `a + sep + x` is `a` when `a` has no separator |
| `LinePatterns.PyImportListAt` | supabase/functions/analyze-code/index.ts:263 | on an `import` line the capture starts after the spaces and runs to the end of the word/comma/space run |
| `LinePatterns.PyImportFirstName` | supabase/functions/analyze-code/index.ts:263-264 | `import a, …` records exactly `a` |
| `LinePatterns.PyClass` | supabase/functions/analyze-code/index.ts:255 | `^class\s+(\w+)` on the trimmed line; stated by `PyClassSpec` and `PyClassOf` |
| `LinePatterns.PyDef` | supabase/functions/analyze-code/index.ts:259 | `^def\s+(\w+)`; stated by `PyDefSpec` |
| `LinePatterns.PyImport` | supabase/functions/analyze-code/index.ts:263-264 | `^(?:from\s+[\w.]+\s+)?import\s+([\w,\s]+)` and then `split(',')[0].trim()`; stated by `PyImportSpec` and `PyImportFirstName` |
| `LinePatterns.JsClass` | supabase/functions/analyze-code/index.ts:267 | `^(?:export\s+)?class\s+(\w+)`; stated by `JsClassSpec` |
| `LinePatterns.JsFunction` | supabase/functions/analyze-code/index.ts:271 | the optional `export` and `async`, then `function\s+(\w+)`; stated by `JsFunctionSpec` |
| `LinePatterns.JsArrow` | supabase/functions/analyze-code/index.ts:272 | `const name = (…) =>` with the optional `export` and `async`; stated by `JsArrowSpec` |
| `LinePatterns.JsImport` | supabase/functions/analyze-code/index.ts:277 | `import`, a braced list or one word, `from`, then a quoted module; stated by `JsImportSpec` |
| `LinePatterns.JavaClass` | supabase/functions/analyze-code/index.ts:281 | `^(?:public\s+)?class\s+(\w+)`; stated by `JavaClassSpec` |
| `LinePatterns.JavaMethod` | supabase/functions/analyze-code/index.ts:285 | the modifier, the optional `static` and type, then a word before `(`; stated by `JavaMethodSpec` and `MethodTailSpec` |
| `LinePatterns.JavaImport` | supabase/functions/analyze-code/index.ts:289 | `^import\s+([\w.]+);`; stated by `JavaImportSpec` |
| `Analyzer.MatchLines` | supabase/functions/analyze-code/index.ts:240-243 | one match per line |
| `Analyzer.MatchLine` | supabase/functions/analyze-code/index.ts:244-291 | one line: the branch-keyword test on the trimmed line and the captures of the language's patterns, none for Go and Rust; stated by `PythonClassLine`, `PythonImportLine` and `GoRustAddNoNames` |
| `Analyzer.Structure` | supabase/functions/analyze-code/index.ts:243-292 | the per-line matches recorded in order; stated by `StructureFrame`, `StructureComplexity` and `StructureExtends` |
| `Analyzer.MatchLinesSnoc` | supabase/functions/analyze-code/index.ts:243 | one more line is one more match at the end |
| `Analyzer.StructureFrame` | supabase/functions/analyze-code/index.ts:239-293 | scanning code changes only the three name lists and the complexity |
| `Analyzer.StructureComplexity` | supabase/functions/analyze-code/index.ts:247-250 | complexity never falls and rises by at most one per line |
| `Analyzer.StructureExtends` | supabase/functions/analyze-code/index.ts:256-290 | the name lists only grow; earlier entries stay in place |
| `Analyzer.ExtendsTransitive` | supabase/functions/analyze-code/index.ts:256-290 | growing twice is growing |
| `Analyzer.StructureSnoc` | supabase/functions/analyze-code/index.ts:243 | recording one more match is one more step |
| `Analyzer.StructureLine` | supabase/functions/analyze-code/index.ts:243-292 | scanning line `i` after lines `0..i-1` gives the scan of lines `0..i` |
| `Analyzer.GoRustAddNoNames` | supabase/functions/analyze-code/index.ts:253-291 | Go and Rust files add no classes, functions or imports |
| `Analyzer.PythonClassLine` | supabase/functions/analyze-code/index.ts:253-260 | a Python line trimming to `class Foo…` records the class `Foo` and no function |
| `Analyzer.PythonImportLine` | supabase/functions/analyze-code/index.ts:263-264 | a Python line trimming to `import a, …` records only `a` |
| `Analyzer.AddTagSpec` | supabase/functions/analyze-code/index.ts:300 | a conditional `Set.add` gains the tag exactly when the condition holds |
| `Analyzer.JsTagsSpec` | supabase/functions/analyze-code/index.ts:300-305 | a tag is present after the six tests exactly when it was before or one of its package names is truthy |
| `Analyzer.JsFrameworksSpec` | supabase/functions/analyze-code/index.ts:295-309 | only the frameworks change; a manifest that does not parse changes nothing; otherwise tags match the merged dependencies |
| `Analyzer.JsFrameworks` | supabase/functions/analyze-code/index.ts:295-309 | `detectJSFrameworks` on the parse outcome; stated by `JsFrameworksSpec`, `ReactDetected` and `DevDependencyOverrides` |
| `Analyzer.ReactDetected` | supabase/functions/analyze-code/index.ts:298-300 | a truthy `react` in dev dependencies, or in dependencies when dev has no `react`, gives React |
| `Analyzer.DevDependencyOverrides` | supabase/functions/analyze-code/index.ts:298 | a falsy `react` in dev dependencies hides a truthy one in dependencies |
| `Analyzer.PyLineTagsSpec` | supabase/functions/analyze-code/index.ts:314-318 | one requirements line adds exactly the tags of the libraries it mentions |
| `Analyzer.PyTagsSpec` | supabase/functions/analyze-code/index.ts:313-319 | over all lines, a tag is present exactly when it was before or some line mentions its library |
| `Analyzer.PyFrameworksSpec` | supabase/functions/analyze-code/index.ts:311-320 | only the frameworks change, gaining the tags some line mentions |
| `Analyzer.PyFrameworks` | supabase/functions/analyze-code/index.ts:311-320 | `detectPythonFrameworks` over the lower-cased lines; stated by `PyFrameworksSpec` |
| `Analyzer.CodeLastChar` | supabase/functions/analyze-code/index.ts:224 | every code extension ends in `y`, `s`, `x`, `a` or `o` |
| `Analyzer.ConfigLastChar` | supabase/functions/analyze-code/index.ts:227 | every configuration extension ends in `n`, `l`, `i` or `v` |
| `Analyzer.CodeAndConfigDisjoint` | supabase/functions/analyze-code/index.ts:224-229 | no name counts as both a code file and a configuration file |
| `Analyzer.LanguageStepCounts` | supabase/functions/analyze-code/index.ts:179-182 | one language branch leaves the four counters alone |
| `Analyzer.LanguagesStepCounts` | supabase/functions/analyze-code/index.ts:179-202 | the six language branches leave the counters alone |
| `Analyzer.ToolsStepCounts` | supabase/functions/analyze-code/index.ts:205-221 | the tool branches leave the counters alone |
| `Analyzer.FileStepCounts` | supabase/functions/analyze-code/index.ts:170-230 | a file keeps the file count, adds exactly its number of `\n`-separated segments to the lines (so at least one), and counts as code or configuration at most once |
| `Analyzer.FileStep` | supabase/functions/analyze-code/index.ts:170-230 | the body of `files.forEach` for one file, in source order; stated by `FileStepCounts` |
| `Analyzer.FoldFilesCounts` | supabase/functions/analyze-code/index.ts:170-230 | over any files: file count kept, at least one line per file, code plus configuration grows by at most the file count |
| `Analyzer.AnalyzeCounts` | supabase/functions/analyze-code/index.ts:152-237 | `totalFiles` is the number of files, lines are at least files, code plus configuration files are at most files |
| `Analyzer.Analyze` | supabase/functions/analyze-code/index.ts:152-237 | the summary `analyzeFiles` returns, the files folded in order; stated by `AnalyzeCounts` |
| `Analyzer.Analysis.constructor` | supabase/functions/analyze-code/index.ts:153-168 | the initial summary object |
| `Analyzer.Analysis.CountBranch` | supabase/functions/analyze-code/index.ts:247-250 | complexity rises by one exactly when a branch keyword occurs |
| `Analyzer.Analysis.PushClass` | supabase/functions/analyze-code/index.ts:256 | a successful class capture is appended |
| `Analyzer.Analysis.PushFunction` | supabase/functions/analyze-code/index.ts:260 | a successful function capture is appended |
| `Analyzer.Analysis.PushImport` | supabase/functions/analyze-code/index.ts:264 | a successful import capture is appended |
| `Analyzer.Analysis.ScanPython` | supabase/functions/analyze-code/index.ts:253-264 | the Python branch appends the class, def and import captures |
| `Analyzer.Analysis.ScanScript` | supabase/functions/analyze-code/index.ts:265-278 | the JS/TS branch appends class, function, arrow function and import captures |
| `Analyzer.Analysis.ScanJava` | supabase/functions/analyze-code/index.ts:279-291 | the Java branch appends class, method and import captures |
| `Analyzer.Analysis.ScanNames` | supabase/functions/analyze-code/index.ts:252-291 | the language dispatch appends that language's captures |
| `Analyzer.Analysis.ScanLine` | supabase/functions/analyze-code/index.ts:243-292 | one line's complexity test and captures are recorded |
| `Analyzer.Analysis.AnalyzeCodeStructure` | supabase/functions/analyze-code/index.ts:239-293 | the object afterwards is the scan of all lines of the content, in order |
| `Analyzer.Analysis.AddFrameworkWhen` | supabase/functions/analyze-code/index.ts:300 | a conditional `Set.add` on the frameworks |
| `Analyzer.Analysis.DetectJSFrameworks` | supabase/functions/analyze-code/index.ts:295-309 | the object afterwards is the JS framework detection on the parsed manifest |
| `Analyzer.Analysis.AddJsTags` | supabase/functions/analyze-code/index.ts:300-305 | the six dependency tests in order |
| `Analyzer.Analysis.ScanRequirementsLine` | supabase/functions/analyze-code/index.ts:313-319 | the five library tests on one line |
| `Analyzer.Analysis.DetectPythonFrameworks` | supabase/functions/analyze-code/index.ts:311-320 | the object afterwards is the detection over the lower-cased lines |
| `Analyzer.Analysis.DetectLanguage` | supabase/functions/analyze-code/index.ts:179-182 | one extension branch: tag and code scan when the name matches |
| `Analyzer.Analysis.DetectLanguages` | supabase/functions/analyze-code/index.ts:179-202 | the six extension branches in order |
| `Analyzer.Analysis.DetectPackageJson` | supabase/functions/analyze-code/index.ts:205-209 | flag, Node.js tag and dependency detection for `package.json` |
| `Analyzer.Analysis.DetectRequirements` | supabase/functions/analyze-code/index.ts:210-213 | flag and Python detection for `requirements.txt` |
| `Analyzer.Analysis.DetectPom` | supabase/functions/analyze-code/index.ts:214-217 | flag and Maven tag for `pom.xml` |
| `Analyzer.Analysis.DetectDocker` | supabase/functions/analyze-code/index.ts:218-221 | flag and Docker tag for `dockerfile` or any name starting with `docker` |
| `Analyzer.Analysis.DetectTools` | supabase/functions/analyze-code/index.ts:205-221 | the four tool branches in order |
| `Analyzer.Analysis.CountKinds` | supabase/functions/analyze-code/index.ts:224-229 | the code and configuration counters |
| `Analyzer.Analysis.CountLines` | supabase/functions/analyze-code/index.ts:175-176 | the line counter grows by the number of `\n`-segments |
| `Analyzer.Analysis.AddFile` | supabase/functions/analyze-code/index.ts:170-230 | the object afterwards is the whole loop body applied to one file |
| `Analyzer.AnalyzeFiles` | supabase/functions/analyze-code/index.ts:152-237 | the summary of all files; file count, line lower bound and code/configuration bound |
| `Analyzer.KeywordHits` | supabase/functions/analyze-code/index.ts:429-431 | at most one hit per keyword |
| `Analyzer.LowerAll` | supabase/functions/analyze-code/index.ts:428 | each message lower-cased, in order |
| `Analyzer.QualityScore` | supabase/functions/analyze-code/index.ts:416-438 | the score lies in 0..95, so the cap of 100 is never reached |
| `Analyzer.CalculateQualityScore` | supabase/functions/analyze-code/index.ts:416-438 | the accumulating loop computes the score and stays in 0..95 |
| `Analyzer.KeywordHitsMonotone` | supabase/functions/analyze-code/index.ts:429-431 | a text containing every keyword another contains has at least as many hits |
| `Analyzer.QualityScoreMonotone` | supabase/functions/analyze-code/index.ts:416-438 | one more message never lowers the score |
| `Analyzer.GenerateSmartSuggestions` | supabase/functions/analyze-code/index.ts:440-460 | each conditional suggestion appears exactly when its condition holds; the count is three plus the number of conditions that hold; the package suggestion comes first, no Dockerfile suggestion precedes the requirements one, and the three fixed ones come last |
| `ImportScan.QuotedSpecifier` | src/components/CodeFlowVisualization.tsx:35 | a quoted specifier match ends past its start and inside the text |
| `ImportScan.ImportClause` | src/components/CodeFlowVisualization.tsx:35 | the optional import clause ends past its start and inside the text |
| `ImportScan.ScriptImportAt` | src/components/CodeFlowVisualization.tsx:35 | a match of the script import pattern ends past its start and inside the text |
| `ImportScan.Declarator` | src/components/CodeFlowVisualization.tsx:41 | the declaration keyword ends past its start |
| `ImportScan.ScriptExportAt` | src/components/CodeFlowVisualization.tsx:41 | a match of the export pattern ends past its start |
| `ImportScan.FromImportAt` | src/components/CodeFlowVisualization.tsx:47 | a `from X import` match ends past its start |
| `ImportScan.PythonImportAt` | src/components/CodeFlowVisualization.tsx:47 | a match of the Python import pattern ends past its start |
| `ImportScan.IncludeAt` | src/components/CodeFlowVisualization.tsx:54 | an `import`/`#include` match ends past its start |
| `ImportScan.GoImportAt` | src/components/CodeFlowVisualization.tsx:61 | a Go import match ends past its start |
| `ImportScan.MatchAt` | src/components/CodeFlowVisualization.tsx:33-61 | every pattern's match ends past its start, so each `exec` makes progress |
| `ImportScan.Exec` | src/components/CodeFlowVisualization.tsx:37 | a match found from `lastIndex` ends after `lastIndex` |
| `ImportScan.ExecStart` | src/components/CodeFlowVisualization.tsx:37 | the search position lies between `lastIndex` and the end |
| `ImportScan.ExecFound` | src/components/CodeFlowVisualization.tsx:37 | `exec` returns the match at the first position where the pattern matches, or none when no position does |
| `ImportScan.ExecLeftmost` | src/components/CodeFlowVisualization.tsx:37 | no position before the match's start matches |
| `ImportScan.CapturesStep` | src/components/CodeFlowVisualization.tsx:37-39 | the captures are this match's capture followed by those after it |
| `ImportScan.Captures` | src/components/CodeFlowVisualization.tsx:36-39 | what the `while (exec)` loop pushes from `lastIndex` on; stated by `CapturesStep` and `CapturesSpec` |
| `ImportScan.CollectMatches` | src/components/CodeFlowVisualization.tsx:36-39 | the `while (exec)` loop pushes exactly the captures of all successive matches |
| `ImportScan.QuotedSpecifierSpec` | src/components/CodeFlowVisualization.tsx:35 | a quoted specifier captures a nonempty quote-free string |
| `ImportScan.ScriptImportSpec` | src/components/CodeFlowVisualization.tsx:35 | a script import captures a nonempty quote-free specifier |
| `ImportScan.ScriptExportSpec` | src/components/CodeFlowVisualization.tsx:41 | an export captures a nonempty word |
| `ImportScan.PythonImportSpec` | src/components/CodeFlowVisualization.tsx:47-50 | a Python import captures a nonempty run of non-space characters, from whichever group matched |
| `ImportScan.IncludeSpec` | src/components/CodeFlowVisualization.tsx:54 | an include captures a nonempty string without `<`, `>` or `"` |
| `ImportScan.GoImportSpec` | src/components/CodeFlowVisualization.tsx:61 | a quoted Go import captures a nonempty string without `"` |
| `ImportScan.MatchAtSpec` | src/components/CodeFlowVisualization.tsx:35-61 | every capture is nonempty and drawn from its pattern's character class |
| `ImportScan.CapturesSpec` | src/components/CodeFlowVisualization.tsx:35-65 | every pushed capture is nonempty and drawn from its pattern's character class |
| `ImportScan.MatchAtCaptures` | src/components/CodeFlowVisualization.tsx:38-57 | except for Go, every match has a capture |
| `ImportScan.GoBlockCapturesNothing` | src/components/CodeFlowVisualization.tsx:61-65 | a parenthesised Go import block records no import |
| `ImportScan.GoQuotedCaptured` | src/components/CodeFlowVisualization.tsx:61-65 | `import "path"` records exactly `path` |
| `CodeFlow.FileTypeOfExtension` | src/components/CodeFlowVisualization.tsx:28 | the type of `stem.ext` is `ext` |
| `CodeFlow.FileTypeWithoutDot` | src/components/CodeFlowVisualization.tsx:28 | a name without a dot is its own type |
| `CodeFlow.FileTypeUnknown` | src/components/CodeFlowVisualization.tsx:28 | an empty name, or one ending in a dot, has type `unknown` |
| `CodeFlow.FileType` | src/components/CodeFlowVisualization.tsx:28 | the text after the last `.` of the name, or `unknown` when that is empty; its cases are stated by `FileTypeOfExtension`, `FileTypeWithoutDot` and `FileTypeUnknown` |
| `CodeFlow.Parsed` | src/components/CodeFlowVisualization.tsx:26-75 | the record `parseFileContent` resolves to: name and path, the type, the imports of the type's expression, exports for script types only; stated by `ParsedSpec` |
| `CodeFlow.ParseFileContent` | src/components/CodeFlowVisualization.tsx:26-75 | the record built by the scan loops |
| `CodeFlow.ParsedSpec` | src/components/CodeFlowVisualization.tsx:26-75 | name and path are the file name; only script files export; files of other types import nothing; every import is nonempty; exports are words; script imports are quote-free |
| `CodeFlow.ParsedGo` | src/components/CodeFlowVisualization.tsx:59-65 | a Go file's imports are the Go pattern's captures |
| `CodeFlow.GoBlockNoImports` | src/components/CodeFlowVisualization.tsx:59-65 | a Go file holding only an import block has no imports |
| `CodeFlow.GoQuotedImport` | src/components/CodeFlowVisualization.tsx:59-65 | a Go file holding `import "path"` has exactly that import |
| `CodeFlow.NormalizeSpec` | src/components/CodeFlowVisualization.tsx:135 | the normalised import is the last `/`-segment with its quotes removed and every other character kept in order, or the raw import when that is empty; it then has no `/` and no quote; a nonempty import normalises to a nonempty string |
| `CodeFlow.NormalizeQuotedPath` | src/components/CodeFlowVisualization.tsx:135 | `dir/name'` with a quote-free, slash-free `name` normalises to exactly `name` |
| `CodeFlow.Normalize` | src/components/CodeFlowVisualization.tsx:135 | the normalised import specifier; stated by `NormalizeSpec` and `NormalizeQuotedPath` |
| `CodeFlow.Matches` | src/components/CodeFlowVisualization.tsx:138-139 | the target's name contains the normalised import, or the import contains the name's first `.`-segment; used by `EdgeRule` |
| `CodeFlow.DotNameMatchesEverything` | src/components/CodeFlowVisualization.tsx:138-139 | a target name starting with `.` matches every import |
| `CodeFlow.Decimal` | src/components/CodeFlowVisualization.tsx:102 | an id is never empty |
| `CodeFlow.DecimalInjective` | src/components/CodeFlowVisualization.tsx:102 | different indexes have different decimal ids |
| `CodeFlow.CeilSqrtFrom` | src/components/CodeFlowVisualization.tsx:94 | the upward search finds the least `c` with `c*c >= n` |
| `CodeFlow.CeilSqrt` | src/components/CodeFlowVisualization.tsx:94 | `columns` is the least `c` with `c*c >= n` |
| `CodeFlow.CeilSqrtUnique` | src/components/CodeFlowVisualization.tsx:94 | any least `c` with `c*c >= n` is `columns` |
| `CodeFlow.ColumnsSpec` | src/components/CodeFlowVisualization.tsx:94 | there is at least one column for a nonempty file list, and the grid has room for every file |
| `CodeFlow.GridOfFour` | src/components/CodeFlowVisualization.tsx:94-124 | four files make a 2×2 grid; the fourth sits at (220, 140) |
| `CodeFlow.GridCellsDistinct` | src/components/CodeFlowVisualization.tsx:97-98 | two files never share a grid position |
| `CodeFlow.GridBounds` | src/components/CodeFlowVisualization.tsx:94-124 | every position lies inside the `columns × columns` grid |
| `CodeFlow.EdgeForInjective` | src/components/CodeFlowVisualization.tsx:141-143 | an edge's id, source and target determine its two files |
| `CodeFlow.NodeFor` | src/components/CodeFlowVisualization.tsx:101-124 | node `i`: id `${index}`, the file name, its type, its export count and its grid cell; stated by `NodesSpec` |
| `CodeFlow.EdgeFor` | src/components/CodeFlowVisualization.tsx:140-143 | the edge `e{i}-{t}` from node `i` to node `t`; stated by `EdgeForInjective` |
| `CodeFlow.GridX` | src/components/CodeFlowVisualization.tsx:96-122 | `x = (index % columns) * 220`; stated by `GridCellsDistinct`, `GridBounds` and `GridOfFour` |
| `CodeFlow.GridY` | src/components/CodeFlowVisualization.tsx:96-123 | `y = Math.floor(index / columns) * 140`; stated by `GridCellsDistinct`, `GridBounds` and `GridOfFour` |
| `CodeFlow.Nodes` | src/components/CodeFlowVisualization.tsx:96-132 | one node per file |
| `CodeFlow.NodesSpec` | src/components/CodeFlowVisualization.tsx:101-124 | node `i` carries id `i`, the file's name, type and export count, and its grid position |
| `CodeFlow.NodeIdsDistinct` | src/components/CodeFlowVisualization.tsx:102 | node ids are pairwise distinct |
| `CodeFlow.LinkTargets` | src/components/CodeFlowVisualization.tsx:137-155 | the inner loop emits the edges to every matching target, in file order |
| `CodeFlow.LinkImports` | src/components/CodeFlowVisualization.tsx:134-156 | the import loop emits, import by import, the edges of each |
| `CodeFlow.TargetEdges` | src/components/CodeFlowVisualization.tsx:137-155 | the edges of one normalised import over the targets, in file order; stated by `TargetEdgesSound`, `TargetEdgeComplete` and `TargetEdgesCount` |
| `CodeFlow.ImportEdges` | src/components/CodeFlowVisualization.tsx:134-156 | the edges of one file's imports, in import order; stated by `ImportEdgesSound`, `ImportEdgeComplete` and `ImportEdgesCount` |
| `CodeFlow.Edges` | src/components/CodeFlowVisualization.tsx:96-157 | the edges of the files, in file order; stated by `EdgeRule`, `EdgesSound`, `EdgeEndpoints` and `EdgeCount` |
| `CodeFlow.BuildGraph` | src/components/CodeFlowVisualization.tsx:85-157 | the nodes and edges built by the nested loops are `Nodes` and `Edges`; there is one node per file and one edge per (import, matching file) pair |
| `CodeFlow.TargetEdgesSound` | src/components/CodeFlowVisualization.tsx:137-155 | every edge of one import goes to a target its rule matches |
| `CodeFlow.TargetEdgeComplete` | src/components/CodeFlowVisualization.tsx:137-155 | every matching target gets an edge |
| `CodeFlow.ImportEdgesSound` | src/components/CodeFlowVisualization.tsx:134-156 | every edge of a file comes from one of its imports and a matching target |
| `CodeFlow.ImportEdgeComplete` | src/components/CodeFlowVisualization.tsx:134-156 | every (import, matching target) pair of a file gets an edge |
| `CodeFlow.EdgesSoundStep` | src/components/CodeFlowVisualization.tsx:96-157 | one more file keeps every edge justified by the rule |
| `CodeFlow.EdgesSound` | src/components/CodeFlowVisualization.tsx:96-157 | every edge joins a pair of files the rule links |
| `CodeFlow.EdgesStep` | src/components/CodeFlowVisualization.tsx:96-157 | later files only add edges |
| `CodeFlow.EdgesGrow` | src/components/CodeFlowVisualization.tsx:96-157 | an edge of a prefix of the files stays an edge of a longer prefix |
| `CodeFlow.EdgeFromOwnFile` | src/components/CodeFlowVisualization.tsx:134-156 | a linked pair's edge is emitted while its source file is processed |
| `CodeFlow.EdgeRule` | src/components/CodeFlowVisualization.tsx:134-156 | the edge `i → t` exists exactly when some normalised import of `i` matches `t` |
| `CodeFlow.EdgeEndpoints` | src/components/CodeFlowVisualization.tsx:140-143 | every edge's source and target are ids of files |
| `CodeFlow.SelfLoop` | src/components/CodeFlowVisualization.tsx:137-139 | a file whose import matches its own name gets a self-loop |
| `CodeFlow.DotFileIsEveryonesTarget` | src/components/CodeFlowVisualization.tsx:138-139 | a file named `.x` is the target of every file that imports anything |
| `CodeFlow.TargetEdgesCount` | src/components/CodeFlowVisualization.tsx:137-155 | one edge per matching target |
| `CodeFlow.ImportEdgesCount` | src/components/CodeFlowVisualization.tsx:134-156 | one edge per (import, matching target) pair |
| `CodeFlow.EdgeCountStep` | src/components/CodeFlowVisualization.tsx:96-157 | one more file adds its pair count to the edge count |
| `CodeFlow.EdgeCount` | src/components/CodeFlowVisualization.tsx:134-156 | no deduplication: the edge count is the number of (file, import, matching target) triples |
| `CodeFlow.ParsedAll` | src/components/CodeFlowVisualization.tsx:81-83 | one parsed record per file, in order |
| `CodeFlow.CodeFlowView.constructor` | src/components/CodeFlowVisualization.tsx:22-23 | the component starts with no nodes and no edges |
| `CodeFlow.CodeFlowView.Refresh` | src/components/CodeFlowVisualization.tsx:77-164 | no files leave the graph as it was; otherwise nodes and edges are those built from the parsed files |
| `IndexPage.Arrive` | src/pages/Index.tsx:83-102 | arriving keeps the history and moves the index; `home` closes the workspace, any other location becomes the active view |
| `IndexPage.Navigate` | src/pages/Index.tsx:73-78 | entries up to the current one kept, the rest dropped, the location appended and made current |
| `IndexPage.Back` | src/pages/Index.tsx:80-91 | nothing changes at index 0; otherwise the index falls by one over the same history, with the arrival effect |
| `IndexPage.Forward` | src/pages/Index.tsx:93-104 | nothing changes at the last entry; otherwise the index rises by one over the same history, with the arrival effect |
| `IndexPage.Home` | src/pages/Index.tsx:106-117 | home becomes the current entry right after the kept entries, the forward entries are dropped, the workspace closes and the chat shows |
| `IndexPage.InitialAtHome` | src/pages/Index.tsx:36-44 | the page starts at `home`, with a one-entry history, no workspace and the chat view |
| `IndexPage.BackThenForward` | src/pages/Index.tsx:80-104 | back then forward returns to the same entry |
| `IndexPage.ForwardThenBack` | src/pages/Index.tsx:80-104 | forward then back returns to the same entry |
| `IndexPage.NavigateCutsForward` | src/pages/Index.tsx:73-104 | after navigating there is nothing to go forward to |
| `IndexPage.NavigateThenBack` | src/pages/Index.tsx:73-91 | navigating then going back lands on the entry that was current |
| `IndexPage.Run` | src/pages/Index.tsx:43-117 | every reachable state keeps the index inside the history, with `home` as the first entry |
| `IndexPage.Navigator.constructor` | src/pages/Index.tsx:36-44 | the initial navigation state |
| `IndexPage.Navigator.NavigateTo` | src/pages/Index.tsx:73-78 | the copy, push and index update of `navigateTo` |
| `IndexPage.Navigator.ArriveAt` | src/pages/Index.tsx:84-89 | the view fields set on arriving at a location |
| `IndexPage.Navigator.GoBack` | src/pages/Index.tsx:80-91 | `goBack` on the page state |
| `IndexPage.Navigator.GoForward` | src/pages/Index.tsx:93-104 | `goForward` on the page state |
| `IndexPage.Navigator.GoHome` | src/pages/Index.tsx:106-117 | `goHome` on the navigation state |
| `IndexPage.Route` | src/pages/Index.tsx:326-337 | at most one field is written, with the answer; every other entry is kept; nothing is written when no field is routed |
| `IndexPage.LastQuestion` | src/pages/Index.tsx:326 | the previous message lower-cased, or `''` when there is none; stated by `FirstAnswerNotRouted` and `RouteIgnoresCase` |
| `IndexPage.RouteField` | src/pages/Index.tsx:327-337 | the keyword chain, first match wins; stated by `RouteFieldSpec` and `UserNameIsUsage` |
| `IndexPage.RouteFieldSpec` | src/pages/Index.tsx:327-337 | the routed field is mentioned and no higher-priority field is; nothing is routed exactly when no keyword occurs |
| `IndexPage.FirstAnswerNotRouted` | src/pages/Index.tsx:326 | with no previous message nothing is routed |
| `IndexPage.RouteIgnoresCase` | src/pages/Index.tsx:326 | keywords match whatever the case of the question |
| `IndexPage.UserNameIsUsage` | src/pages/Index.tsx:333-336 | a question containing `username` is never routed to the project name |
| `IndexPage.NextQualityScore` | src/pages/Index.tsx:395 | a missing or zero score keeps the current score; any other replaces it |
| `IndexPage.SelectDocuments` | src/pages/Index.tsx:398-423 | below 60 or without a score the documents are untouched; from 60 README and CONTRIBUTING; from 80 README, CONTRIBUTING, API_REFERENCE and INSTALLATION, in that order |
| `IndexPage.SelectDocumentsMonotone` | src/pages/Index.tsx:398-420 | from 60 on, a higher score never offers fewer documents |
| `QualityBadge.GetScoreLevel` | src/components/QualityScore.tsx:9-14 | `Excellent` from 80, `Good` from 60, `Fair` from 40, `Needs Work` below, and nothing else |
| `QualityBadge.Hints` | src/components/QualityScore.tsx:38-41 | exactly one hint line is shown for any score |
| `QualityBadge.HintAgreesWithLabel` | src/components/QualityScore.tsx:9-41 | the hint shown is the one for the badge's label |
| `QualityBadge.LevelMonotone` | src/components/QualityScore.tsx:9-14 | a higher score never gets a lower label |
| `QualityBadge.IconSpec` | src/components/QualityScore.tsx:10-13 | the check icon for exactly the excellent band; the warning icon exactly below 60 |

## Left out

- The HTTP handler of `analyze-code` (`serve`, CORS, the call to the AI gateway, rate-limit and credit errors, lines 9-150) is left out. It is network I/O.
- The prompt builders `buildSystemPrompt` and `buildAutoGeneratePrompt` are left out. They only interpolate strings.
- `JSON.parse` is not re-implemented. `detectJSFrameworks` takes its outcome as a parameter (`Manifest`): either the parse fails, or it gives the keys of the two dependency objects with the JavaScript truthiness of each value.
- `toLowerCase` maps only the ASCII letters `A`-`Z`. String lengths count characters, not UTF-16 code units.
- A missing `content` is modelled as the empty string, as `file.content || ''` reads it.
- The regular expressions are written as deterministic leftmost scanners. That they agree with the backtracking engine rests on a hand argument: each alternative starts with a different character, and a greedy run the engine gives back always ends in a character the next token cannot start with. The Java method pattern is the exception: it is scanned with the engine's explicit fallback order.
- `CodeFlow.CeilSqrt`: `Math.ceil(Math.sqrt(n))` is modelled as exact integer ceiling square root. Floating point agrees with it only while `n` is far below 2^52.
- The circular layout (`Math.cos`, `Math.sin`) is floating-point trigonometry. Only the hierarchical layout is modelled.
- `fileMap` is built but never read, so it is left out. The same goes for `getNodeColor`, the JSX node label, edge styling and all rendering.
- `file.text()` and `Promise.all` are asynchronous reads. Each file is modelled as its name and its text.
- `CodeFlow.CodeFlowView.Refresh` runs the effect once, to completion. React's scheduling of effects and state updates is not modelled.
- `IndexPage.ArrivedFrom` uses `activeView` as a plain string. The source casts any location into the view union with `as any`.
- `IndexPage.Home` covers only the navigation state. `goHome` also clears the files, messages, documents, score, suggestions and conversation data, none of which are modelled.
- `handleSendMessage` is modelled only in its pure parts:
  - the routing of the answer;
  - `NextQualityScore`;
  - `SelectDocuments`, for the document names only.

  The document contents come from constant markdown templates and from `new Date()`, so they are left out. The network call, toasts and the error paths are also left out. The error paths return before the score or the documents are touched.
- The page's other handlers (file upload, interview start, the VS Code bridge in src/lib/vscode.ts, downloads) are I/O or user-interface code. So are the remaining components. The document templates of src/lib/documentTemplates.ts are not part of this model either.
- A non-numeric score such as `NaN` is not modelled. The badge takes a real number; the page takes an integer or none.
