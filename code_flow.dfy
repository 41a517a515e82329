/** The dependency graph of src/components/CodeFlowVisualization.tsx:
    `parseFileContent` turns each uploaded file into a node record with a
    type tag, its import specifiers and its exported names, and `buildGraph`
    lays the nodes out on a grid and links a file to every file whose name
    matches one of its imports. Only the hierarchical layout is modelled. */
module CodeFlow {

  import opened Wrappers
  import opened Strings
  import opened ImportScan

  /** An uploaded file, read as text. */
  datatype Upload = Upload(name: string, content: string)

  /** `interface FileNode` */
  datatype FileNode = FileNode(
    name: string,
    path: string,
    fileType: string,
    imports: seq<string>,
    exports: seq<string>)

  // ---------------------------------------------------------------------------
  // parseFileContent
  // ---------------------------------------------------------------------------

  /** `file.name.split('.').pop() || 'unknown'` */
  function FileType(name: string): string {
    var ext := LastSegment(name, '.');
    if ext == [] then "unknown" else ext
  }

  /** The type is the text after the last dot. */
  lemma FileTypeOfExtension(stem: string, ext: string)
    requires ext != [] && '.' !in ext
    ensures FileType(stem + "." + ext) == ext
  {
    var name := stem + "." + ext;
    LastSegmentSpec(name, '.');
    assert name[|name| - |ext| - 1] == '.';
    assert name[|name| - |ext|..] == ext;
  }

  /** A name without a dot is its own type. */
  lemma FileTypeWithoutDot(name: string)
    requires name != [] && '.' !in name
    ensures FileType(name) == name
  {
    LastSegmentSpec(name, '.');
  }

  /** An empty name, or one that ends in a dot, has the type `unknown`. */
  lemma FileTypeUnknown(name: string)
    requires name == [] || name[|name| - 1] == '.'
    ensures FileType(name) == "unknown"
  {
    LastSegmentSpec(name, '.');
  }

  const ScriptTypes: seq<string> := ["ts", "tsx", "js", "jsx"]
  const IncludeTypes: seq<string> := ["java", "cpp", "c", "h"]

  /** The import expression the `if` chain chooses for a type, if any. */
  function ImportPattern(fileType: string): Option<ScanPattern> {
    if fileType in ScriptTypes then Some(ScriptImport)
    else if fileType == "py" then Some(PythonImport)
    else if fileType in IncludeTypes then Some(IncludeImport)
    else if fileType == "go" then Some(GoImport)
    else None
  }

  function ImportsOf(fileType: string, content: string): seq<string> {
    match ImportPattern(fileType)
    case None => []
    case Some(p) => Captures(p, content, 0)
  }

  function ExportsOf(fileType: string, content: string): seq<string> {
    if fileType in ScriptTypes then Captures(ScriptExport, content, 0) else []
  }

  /** The record `parseFileContent` resolves to. */
  function Parsed(f: Upload): FileNode {
    var t := FileType(f.name);
    FileNode(f.name, f.name, t, ImportsOf(t, f.content), ExportsOf(t, f.content))
  }

  method ParseFileContent(f: Upload) returns (node: FileNode)
    ensures node == Parsed(f)
  {
    var fileType := FileType(f.name);
    var imports: seq<string> := [];
    var exports: seq<string> := [];
    if fileType in ScriptTypes {
      imports := CollectMatches(ScriptImport, f.content);
      exports := CollectMatches(ScriptExport, f.content);
    } else if fileType == "py" {
      imports := CollectMatches(PythonImport, f.content);
    } else if fileType in IncludeTypes {
      imports := CollectMatches(IncludeImport, f.content);
    } else if fileType == "go" {
      imports := CollectMatches(GoImport, f.content);
    }
    node := FileNode(f.name, f.name, fileType, imports, exports);
  }

  /** Name and path are both the file name; only script files have exports;
      a file of a type with no import expression has no imports; every
      specifier and every exported name is nonempty, and script specifiers
      hold no quote. */
  lemma ParsedSpec(f: Upload)
    ensures Parsed(f).name == f.name && Parsed(f).path == f.name
    ensures Parsed(f).fileType !in ScriptTypes ==> Parsed(f).exports == []
    ensures ImportPattern(Parsed(f).fileType).None? ==> Parsed(f).imports == []
    ensures forall c :: c in Parsed(f).imports ==> c != []
    ensures forall c :: c in Parsed(f).exports ==> c != [] && AllIn(Word, c)
    ensures Parsed(f).fileType in ScriptTypes ==>
      forall c :: c in Parsed(f).imports ==> AllIn(NotQuote, c)
  {
    var t := FileType(f.name);
    if ImportPattern(t).Some? {
      CapturesSpec(ImportPattern(t).value, f.content, 0);
    }
    CapturesSpec(ScriptExport, f.content, 0);
  }

  /** A Go file's imports are what the Go expression collects. */
  lemma ParsedGo(f: Upload)
    requires FileType(f.name) == "go"
    ensures Parsed(f).imports == Captures(GoImport, f.content, 0)
  {
    assert ImportPattern("go") == Some(GoImport);
  }

  /** A Go file that is one import block contributes no import. */
  lemma GoBlockNoImports(stem: string, ws: string, body: string)
    requires ws != [] && AllIn(Space, ws)
    requires ')' !in body
    ensures Parsed(Upload(stem + ".go", "import" + ws + "(" + body + ")")).imports == []
  {
    var f := Upload(stem + ".go", "import" + ws + "(" + body + ")");
    FileTypeOfExtension(stem, "go");
    assert stem + ".go" == stem + "." + "go";
    GoBlockCapturesNothing(ws, body);
    ParsedGo(f);
  }

  /** `import "fmt"` in a Go file contributes `fmt`. */
  lemma GoQuotedImport(stem: string, ws: string, path: string)
    requires ws != [] && AllIn(Space, ws)
    requires path != [] && '"' !in path
    ensures Parsed(Upload(stem + ".go", "import" + ws + "\"" + path + "\"")).imports == [path]
  {
    var f := Upload(stem + ".go", "import" + ws + "\"" + path + "\"");
    FileTypeOfExtension(stem, "go");
    assert stem + ".go" == stem + "." + "go";
    GoQuotedCaptured(ws, path);
    ParsedGo(f);
  }

  // ---------------------------------------------------------------------------
  // The edge rule
  // ---------------------------------------------------------------------------

  /** `importPath.split('/').pop()?.replace(/['"]/g, '') || importPath` */
  function Normalize(spec: string): string {
    var r := RemoveChars(LastSegment(spec, '/'), {'\'', '"'});
    if r == [] then spec else r
  }

  /** The normalised form is the last path segment without quotes, unless
      that is empty; then it is the specifier itself. */
  lemma NormalizeSpec(spec: string)
    ensures Normalize(spec) == spec || ('/' !in Normalize(spec) && '\'' !in Normalize(spec) && '"' !in Normalize(spec))
    ensures spec != [] ==> Normalize(spec) != []
    ensures (forall c :: c in LastSegment(spec, '/') ==> !IsQuote(c)) && LastSegment(spec, '/') != [] ==>
      Normalize(spec) == LastSegment(spec, '/')
    ensures RemoveChars(LastSegment(spec, '/'), {'\'', '"'}) != [] ==>
      Normalize(spec) == RemoveChars(LastSegment(spec, '/'), {'\'', '"'})
    ensures RemoveChars(LastSegment(spec, '/'), {'\'', '"'}) == [] ==> Normalize(spec) == spec
  {
    LastSegmentSpec(spec, '/');
  }

  /** A path whose last segment is a module name followed by a stray quote
      (`./lib/helpers'`) normalises to the bare module name. */
  lemma NormalizeQuotedPath(dir: string, stem: string, q: char)
    requires stem != [] && '/' !in stem && IsQuote(q)
    requires forall c :: c in stem ==> !IsQuote(c)
    ensures Normalize(dir + ['/'] + stem + [q]) == stem
  {
    var spec := dir + ['/'] + stem + [q];
    assert spec == dir + ['/'] + (stem + [q]);
    LastSegmentAfter(dir, stem + [q], '/');
    RemoveCharsConcat(stem, [q], {'\'', '"'});
  }

  /** `targetNode.name.includes(normalizedImport) ||
      normalizedImport.includes(targetNode.name.split('.')[0])` */
  predicate Matches(targetName: string, norm: string) {
    Contains(targetName, norm) || Contains(norm, FirstSegment(targetName, '.'))
  }

  /** A target whose name starts with a dot (`.eslintrc.json`) has an empty
      first segment, which every string contains: every import matches it. */
  lemma DotNameMatchesEverything(targetName: string, norm: string)
    requires targetName != [] && targetName[0] == '.'
    ensures Matches(targetName, norm)
  {
    assert FirstSegment(targetName, '.') == [];
    ContainsEmpty(norm);
  }

  // ---------------------------------------------------------------------------
  // Node ids and the grid
  // ---------------------------------------------------------------------------

  function DigitChar(d: nat): char
    requires d < 10
  {
    ('0' as int + d) as char
  }

  /** `${n}` */
  function Decimal(n: nat): (r: string)
    ensures r != []
    decreases n
  {
    if n < 10 then [DigitChar(n)] else Decimal(n / 10) + [DigitChar(n % 10)]
  }

  /** Different numbers have different decimal forms. */
  lemma {:induction false} DecimalInjective(a: nat, b: nat)
    requires Decimal(a) == Decimal(b)
    ensures a == b
    decreases a
  {
    if a >= 10 && b >= 10 {
      var da, db := Decimal(a / 10), Decimal(b / 10);
      assert da == Decimal(a)[..|Decimal(a)| - 1];
      assert db == Decimal(b)[..|Decimal(b)| - 1];
      DecimalInjective(a / 10, b / 10);
    }
  }

  lemma MulAtLeast(c: nat)
    ensures c <= c * c
  {
    if c > 0 {
      assert c * c == c * (c - 1) + c;
    }
  }

  function CeilSqrtFrom(n: nat, c: nat): (r: nat)
    requires c == 0 || (c - 1) * (c - 1) < n
    ensures r * r >= n && (r == 0 || (r - 1) * (r - 1) < n)
    decreases n - c
  {
    MulAtLeast(c);
    if c * c >= n then c else CeilSqrtFrom(n, c + 1)
  }

  /** `Math.ceil(Math.sqrt(n))`: the least `c` with `c * c >= n`. */
  function CeilSqrt(n: nat): (c: nat)
    ensures c * c >= n && (c == 0 || (c - 1) * (c - 1) < n)
  {
    CeilSqrtFrom(n, 0)
  }

  /** There is no other such number. */
  lemma CeilSqrtUnique(n: nat, c: nat)
    requires c * c >= n && (c == 0 || (c - 1) * (c - 1) < n)
    ensures c == CeilSqrt(n)
  {
    var r := CeilSqrt(n);
    if c < r {
      assert c <= r - 1;
      assert c * c <= (r - 1) * (r - 1) by { MulMonotone(c, r - 1); }
    } else if r < c {
      assert r <= c - 1;
      assert r * r <= (c - 1) * (c - 1) by { MulMonotone(r, c - 1); }
    }
  }

  lemma MulMonotone(a: nat, b: nat)
    requires a <= b
    ensures a * a <= b * b
  {
    assert a * a <= a * b <= b * b;
  }

  /** `columns` is positive for a nonempty list, and the grid has room for
      every node: `n <= columns * columns`. */
  lemma ColumnsSpec(n: nat)
    ensures n > 0 ==> CeilSqrt(n) > 0
    ensures n <= CeilSqrt(n) * CeilSqrt(n)
  {
  }

  /** `{ x: col * 220, y: row * 140 }` with `row = Math.floor(index / columns)`
      and `col = index % columns`. */
  function GridX(index: nat, columns: nat): int
    requires columns > 0
  {
    (index % columns) * 220
  }

  function GridY(index: nat, columns: nat): int
    requires columns > 0
  {
    (index / columns) * 140
  }

  /** Four nodes sit on a 2 by 2 grid; the fourth is at (220, 140). */
  lemma GridOfFour()
    ensures CeilSqrt(4) == 2
    ensures GridX(3, 2) == 220 && GridY(3, 2) == 140
  {
    CeilSqrtUnique(4, 2);
  }

  /** No two indices share a grid cell. */
  lemma GridCellsDistinct(i: nat, j: nat, columns: nat)
    requires columns > 0 && i != j
    ensures GridX(i, columns) != GridX(j, columns) || GridY(i, columns) != GridY(j, columns)
  {
    assert i == (i / columns) * columns + i % columns;
    assert j == (j / columns) * columns + j % columns;
  }

  lemma MulLeft(c: nat, a: nat, b: nat)
    requires a >= b
    ensures a * c >= b * c
  {
  }

  lemma DivBelow(i: nat, c: nat)
    requires c > 0 && i < c * c
    ensures i / c < c
  {
    var q := i / c;
    assert i == q * c + i % c;
    if q >= c {
      MulLeft(c, q, c);
    }
  }

  /** Each of `n` nodes lies within the first `columns` columns and rows. */
  lemma GridBounds(n: nat, i: nat)
    requires i < n
    ensures 0 <= GridX(i, CeilSqrt(n)) < CeilSqrt(n) * 220
    ensures 0 <= GridY(i, CeilSqrt(n)) < CeilSqrt(n) * 140
  {
    DivBelow(i, CeilSqrt(n));
  }

  // ---------------------------------------------------------------------------
  // Nodes and edges
  // ---------------------------------------------------------------------------

  /** What a generated node shows: its id, the file name, the type badge,
      the number of exports and the grid position. */
  datatype GraphNode = GraphNode(id: string, title: string, fileType: string, exportCount: nat, x: int, y: int)

  /** A generated edge: `e{source}-{target}`, from one node id to another. */
  datatype GraphEdge = GraphEdge(id: string, source: string, target: string)

  function NodeFor(fs: seq<FileNode>, i: nat, columns: nat): GraphNode
    requires i < |fs| && columns > 0
  {
    GraphNode(Decimal(i), fs[i].name, fs[i].fileType, |fs[i].exports|, GridX(i, columns), GridY(i, columns))
  }

  function EdgeFor(i: nat, t: nat): GraphEdge {
    GraphEdge("e" + Decimal(i) + "-" + Decimal(t), Decimal(i), Decimal(t))
  }

  /** An edge names the pair of nodes it joins. */
  lemma EdgeForInjective(i: nat, t: nat, i': nat, t': nat)
    requires EdgeFor(i, t) == EdgeFor(i', t')
    ensures i == i' && t == t'
  {
    DecimalInjective(i, i');
    DecimalInjective(t, t');
  }

  /** The nodes of the first `k` files. */
  function Nodes(fs: seq<FileNode>, k: nat, columns: nat): (r: seq<GraphNode>)
    requires k <= |fs| && (k == 0 || columns > 0)
    ensures |r| == k
    decreases k
  {
    if k == 0 then [] else Nodes(fs, k - 1, columns) + [NodeFor(fs, k - 1, columns)]
  }

  /** The edges from file `i` for one normalised import, over the first `t`
      targets. */
  function TargetEdges(fs: seq<FileNode>, i: nat, norm: string, t: nat): seq<GraphEdge>
    requires t <= |fs|
    decreases t
  {
    if t == 0 then []
    else TargetEdges(fs, i, norm, t - 1) + (if Matches(fs[t - 1].name, norm) then [EdgeFor(i, t - 1)] else [])
  }

  /** The edges from file `i` for a list of its imports, in order. */
  function ImportEdges(fs: seq<FileNode>, i: nat, imps: seq<string>): seq<GraphEdge>
    decreases |imps|
  {
    if imps == [] then []
    else ImportEdges(fs, i, imps[..|imps| - 1]) + TargetEdges(fs, i, Normalize(imps[|imps| - 1]), |fs|)
  }

  /** The edges of the first `k` files. */
  function Edges(fs: seq<FileNode>, k: nat): seq<GraphEdge>
    requires k <= |fs|
    decreases k
  {
    if k == 0 then [] else Edges(fs, k - 1) + ImportEdges(fs, k - 1, fs[k - 1].imports)
  }

  /** The edge rule on its own: some import of file `a`, normalised, matches
      the name of file `b`. */
  predicate Links(fs: seq<FileNode>, a: nat, b: nat)
    requires a < |fs| && b < |fs|
  {
    exists j :: 0 <= j < |fs[a].imports| && Matches(fs[b].name, Normalize(fs[a].imports[j]))
  }

  // ---------------------------------------------------------------------------
  // buildGraph
  // ---------------------------------------------------------------------------

  /** `fileNodes.forEach((targetNode, targetIndex) => ...)` for one import. */
  method LinkTargets(fs: seq<FileNode>, i: nat, norm: string) returns (es: seq<GraphEdge>)
    ensures es == TargetEdges(fs, i, norm, |fs|)
  {
    es := [];
    for t := 0 to |fs|
      invariant es == TargetEdges(fs, i, norm, t)
    {
      if Matches(fs[t].name, norm) {
        es := es + [EdgeFor(i, t)];
      }
    }
  }

  /** `fileNode.imports.forEach(importPath => ...)` */
  method LinkImports(fs: seq<FileNode>, i: nat) returns (es: seq<GraphEdge>)
    requires i < |fs|
    ensures es == ImportEdges(fs, i, fs[i].imports)
  {
    var imps := fs[i].imports;
    es := [];
    for j := 0 to |imps|
      invariant es == ImportEdges(fs, i, imps[..j])
    {
      var more := LinkTargets(fs, i, Normalize(imps[j]));
      assert imps[..j + 1][..j] == imps[..j];
      es := es + more;
    }
    assert imps[..|imps|] == imps;
  }

  /** The body of `buildGraph` after the files are parsed. */
  method BuildGraph(fs: seq<FileNode>) returns (nodes: seq<GraphNode>, edges: seq<GraphEdge>)
    ensures nodes == Nodes(fs, |fs|, CeilSqrt(|fs|))
    ensures edges == Edges(fs, |fs|)
    ensures |nodes| == |fs| && |edges| == AllPairs(fs, |fs|)
  {
    var columns := CeilSqrt(|fs|);
    nodes := [];
    edges := [];
    for i := 0 to |fs|
      invariant nodes == Nodes(fs, i, columns)
      invariant edges == Edges(fs, i)
    {
      nodes := nodes + [NodeFor(fs, i, columns)];
      var more := LinkImports(fs, i);
      edges := edges + more;
    }
    EdgeCount(fs, |fs|);
  }

  // ---------------------------------------------------------------------------
  // What the graph is
  // ---------------------------------------------------------------------------

  /** One node per file, in input order, with id `"i"` and its grid cell. */
  lemma {:induction false} NodesSpec(fs: seq<FileNode>, k: nat, columns: nat)
    requires k <= |fs| && (k == 0 || columns > 0)
    ensures forall i :: 0 <= i < k ==> Nodes(fs, k, columns)[i] == NodeFor(fs, i, columns)
    decreases k
  {
    if k > 0 {
      NodesSpec(fs, k - 1, columns);
    }
  }

  /** The node ids are all different. */
  lemma NodeIdsDistinct(fs: seq<FileNode>, i: nat, j: nat)
    requires |fs| > 0 && i < |fs| && j < |fs| && i != j
    ensures Nodes(fs, |fs|, CeilSqrt(|fs|))[i].id != Nodes(fs, |fs|, CeilSqrt(|fs|))[j].id
  {
    NodesSpec(fs, |fs|, CeilSqrt(|fs|));
    if Decimal(i) == Decimal(j) {
      DecimalInjective(i, j);
    }
  }

  /** Over one import: every edge joins `i` to a target `b` that matches. */
  lemma {:induction false} TargetEdgesSound(fs: seq<FileNode>, i: nat, norm: string, t: nat)
    requires t <= |fs|
    ensures forall e :: e in TargetEdges(fs, i, norm, t) ==>
      exists b :: 0 <= b < t && Matches(fs[b].name, norm) && e == EdgeFor(i, b)
    decreases t
  {
    if t > 0 {
      TargetEdgesSound(fs, i, norm, t - 1);
    }
  }

  /** Over one import: a target that matches gets its edge. */
  lemma {:induction false} TargetEdgeComplete(fs: seq<FileNode>, i: nat, norm: string, t: nat, b: nat)
    requires b < t <= |fs| && Matches(fs[b].name, norm)
    ensures EdgeFor(i, b) in TargetEdges(fs, i, norm, t)
    decreases t
  {
    if b < t - 1 {
      TargetEdgeComplete(fs, i, norm, t - 1, b);
    }
  }

  /** Over a list of imports: every edge joins `i` to a target that one of
      the imports matches. */
  lemma {:induction false} ImportEdgesSound(fs: seq<FileNode>, i: nat, imps: seq<string>)
    ensures forall e :: e in ImportEdges(fs, i, imps) ==>
      exists b, j :: 0 <= b < |fs| && 0 <= j < |imps| && Matches(fs[b].name, Normalize(imps[j])) && e == EdgeFor(i, b)
    decreases |imps|
  {
    if imps != [] {
      var init := imps[..|imps| - 1];
      var last := imps[|imps| - 1];
      ImportEdgesSound(fs, i, init);
      TargetEdgesSound(fs, i, Normalize(last), |fs|);
      forall e | e in ImportEdges(fs, i, imps)
        ensures exists b, j :: 0 <= b < |fs| && 0 <= j < |imps| && Matches(fs[b].name, Normalize(imps[j])) && e == EdgeFor(i, b)
      {
        if e in ImportEdges(fs, i, init) {
          var b, j :| 0 <= b < |fs| && 0 <= j < |init| && Matches(fs[b].name, Normalize(init[j])) && e == EdgeFor(i, b);
          assert imps[j] == init[j];
        } else {
          var b :| 0 <= b < |fs| && Matches(fs[b].name, Normalize(last)) && e == EdgeFor(i, b);
          assert imps[|imps| - 1] == last;
        }
      }
    }
  }

  /** Over a list of imports: a target that import `j` matches gets its
      edge. */
  lemma {:induction false} ImportEdgeComplete(fs: seq<FileNode>, i: nat, imps: seq<string>, b: nat, j: nat)
    requires b < |fs| && j < |imps| && Matches(fs[b].name, Normalize(imps[j]))
    ensures EdgeFor(i, b) in ImportEdges(fs, i, imps)
    decreases |imps|
  {
    var init := imps[..|imps| - 1];
    if j < |imps| - 1 {
      assert imps[j] == init[j];
      ImportEdgeComplete(fs, i, init, b, j);
    } else {
      TargetEdgeComplete(fs, i, Normalize(imps[j]), |fs|, b);
    }
  }

  /** Every edge of the first `k` files comes from a pair the rule links. */
  predicate SoundUpTo(fs: seq<FileNode>, k: nat)
    requires k <= |fs|
  {
    forall e :: e in Edges(fs, k) ==>
      exists a, b :: 0 <= a < k && 0 <= b < |fs| && Links(fs, a, b) && e == EdgeFor(a, b)
  }

  lemma EdgesSoundStep(fs: seq<FileNode>, k: nat)
    requires 0 < k <= |fs| && SoundUpTo(fs, k - 1)
    ensures SoundUpTo(fs, k)
  {
    var a := k - 1;
    ImportEdgesSound(fs, a, fs[a].imports);
    forall e | e in ImportEdges(fs, a, fs[a].imports)
      ensures exists a', b :: 0 <= a' < k && 0 <= b < |fs| && Links(fs, a', b) && e == EdgeFor(a', b)
    {
      var b, j :| 0 <= b < |fs| && 0 <= j < |fs[a].imports|
        && Matches(fs[b].name, Normalize(fs[a].imports[j])) && e == EdgeFor(a, b);
      assert Links(fs, a, b);
    }
    assert Edges(fs, k) == Edges(fs, a) + ImportEdges(fs, a, fs[a].imports);
  }

  /** Over the first `k` files, every edge is a pair the rule links, with
      its source among those files. */
  lemma EdgesSound(fs: seq<FileNode>, k: nat)
    requires k <= |fs|
    ensures forall e :: e in Edges(fs, k) ==>
      exists a, b :: 0 <= a < k && 0 <= b < |fs| && Links(fs, a, b) && e == EdgeFor(a, b)
  {
    var n := 0;
    while n < k
      invariant n <= k && SoundUpTo(fs, n)
    {
      EdgesSoundStep(fs, n + 1);
      n := n + 1;
    }
  }

  /** One more file only adds edges. */
  lemma EdgesStep(fs: seq<FileNode>, k: nat, e: GraphEdge)
    requires 0 < k <= |fs| && e in Edges(fs, k - 1)
    ensures e in Edges(fs, k)
  {
    assert Edges(fs, k) == Edges(fs, k - 1) + ImportEdges(fs, k - 1, fs[k - 1].imports);
  }

  /** The edges of a prefix of the files stay in the edges of a longer prefix. */
  lemma EdgesGrow(fs: seq<FileNode>, k1: nat, k2: nat, e: GraphEdge)
    requires k1 <= k2 <= |fs| && e in Edges(fs, k1)
    ensures e in Edges(fs, k2)
  {
    var k := k1;
    while k < k2
      invariant k1 <= k <= k2 && e in Edges(fs, k)
    {
      EdgesStep(fs, k + 1, e);
      k := k + 1;
    }
  }

  /** An edge the rule asks for is emitted while file `a` is processed. */
  lemma EdgeFromOwnFile(fs: seq<FileNode>, a: nat, b: nat)
    requires a < |fs| && b < |fs| && Links(fs, a, b)
    ensures EdgeFor(a, b) in Edges(fs, a + 1)
  {
    var j :| 0 <= j < |fs[a].imports| && Matches(fs[b].name, Normalize(fs[a].imports[j]));
    ImportEdgeComplete(fs, a, fs[a].imports, b, j);
    assert Edges(fs, a + 1) == Edges(fs, a) + ImportEdges(fs, a, fs[a].imports);
  }

  lemma EdgeRule(fs: seq<FileNode>, i: nat, t: nat)
    requires i < |fs| && t < |fs|
    ensures EdgeFor(i, t) in Edges(fs, |fs|) <==> Links(fs, i, t)
  {
    EdgesSound(fs, |fs|);
    if Links(fs, i, t) {
      EdgeFromOwnFile(fs, i, t);
      EdgesGrow(fs, i + 1, |fs|, EdgeFor(i, t));
    }
    if EdgeFor(i, t) in Edges(fs, |fs|) {
      var a, b :| 0 <= a < |fs| && 0 <= b < |fs| && Links(fs, a, b) && EdgeFor(i, t) == EdgeFor(a, b);
      EdgeForInjective(i, t, a, b);
    }
  }

  /** Every edge's source and target are ids of generated nodes (node `a`
      has the id `Decimal(a)`, by `NodesSpec`). */
  lemma EdgeEndpoints(fs: seq<FileNode>, e: GraphEdge)
    requires e in Edges(fs, |fs|)
    ensures exists a, b :: 0 <= a < |fs| && 0 <= b < |fs| && e.source == Decimal(a) && e.target == Decimal(b)
  {
    EdgesSound(fs, |fs|);
    var a, b :| 0 <= a < |fs| && 0 <= b < |fs| && Links(fs, a, b) && e == EdgeFor(a, b);
  }

  /** A file whose import names the file itself (`utils.ts` importing
      `./utils`) gets an edge to itself. */
  lemma SelfLoop(fs: seq<FileNode>, i: nat, j: nat)
    requires i < |fs| && j < |fs[i].imports|
    requires Matches(fs[i].name, Normalize(fs[i].imports[j]))
    ensures EdgeFor(i, i) in Edges(fs, |fs|)
  {
    EdgeRule(fs, i, i);
  }

  /** A file whose name starts with a dot is the target of an edge from
      every file that has an import. */
  lemma DotFileIsEveryonesTarget(fs: seq<FileNode>, i: nat, t: nat)
    requires i < |fs| && t < |fs| && fs[i].imports != []
    requires fs[t].name != [] && fs[t].name[0] == '.'
    ensures EdgeFor(i, t) in Edges(fs, |fs|)
  {
    DotNameMatchesEverything(fs[t].name, Normalize(fs[i].imports[0]));
    EdgeRule(fs, i, t);
  }

  // ---------------------------------------------------------------------------
  // Edge count: no pair is merged
  // ---------------------------------------------------------------------------

  /** How many of the first `t` files a normalised import matches. */
  function MatchCount(fs: seq<FileNode>, norm: string, t: nat): nat
    requires t <= |fs|
    decreases t
  {
    if t == 0 then 0 else MatchCount(fs, norm, t - 1) + (if Matches(fs[t - 1].name, norm) then 1 else 0)
  }

  /** How many (import, matching file) pairs a list of imports has. */
  function PairCount(fs: seq<FileNode>, imps: seq<string>): nat
    decreases |imps|
  {
    if imps == [] then 0
    else PairCount(fs, imps[..|imps| - 1]) + MatchCount(fs, Normalize(imps[|imps| - 1]), |fs|)
  }

  /** How many pairs the first `k` files have. */
  function AllPairs(fs: seq<FileNode>, k: nat): nat
    requires k <= |fs|
    decreases k
  {
    if k == 0 then 0 else AllPairs(fs, k - 1) + PairCount(fs, fs[k - 1].imports)
  }

  lemma {:induction false} TargetEdgesCount(fs: seq<FileNode>, i: nat, norm: string, t: nat)
    requires t <= |fs|
    ensures |TargetEdges(fs, i, norm, t)| == MatchCount(fs, norm, t)
    decreases t
  {
    if t > 0 {
      TargetEdgesCount(fs, i, norm, t - 1);
    }
  }

  lemma {:induction false} ImportEdgesCount(fs: seq<FileNode>, i: nat, imps: seq<string>)
    ensures |ImportEdges(fs, i, imps)| == PairCount(fs, imps)
    decreases |imps|
  {
    if imps != [] {
      var init := imps[..|imps| - 1];
      var last := imps[|imps| - 1];
      ImportEdgesCount(fs, i, init);
      TargetEdgesCount(fs, i, Normalize(last), |fs|);
    }
  }

  /** There is one edge per (import, matching file) pair: edges are never
      merged, so two imports of `i` that both match `t` give two edges with
      the same id `e{i}-{t}`. */
  lemma LengthOfConcat(x: seq<GraphEdge>, y: seq<GraphEdge>, p: nat, q: nat)
    requires |x| == p && |y| == q
    ensures |x + y| == p + q
  {
  }

  lemma EdgeCountStep(fs: seq<FileNode>, k: nat)
    requires 0 < k <= |fs| && |Edges(fs, k - 1)| == AllPairs(fs, k - 1)
    ensures |Edges(fs, k)| == AllPairs(fs, k)
  {
    var imps := fs[k - 1].imports;
    ImportEdgesCount(fs, k - 1, imps);
    LengthOfConcat(Edges(fs, k - 1), ImportEdges(fs, k - 1, imps), AllPairs(fs, k - 1), PairCount(fs, imps));
  }

  lemma EdgeCount(fs: seq<FileNode>, k: nat)
    requires k <= |fs|
    ensures |Edges(fs, k)| == AllPairs(fs, k)
  {
    var n := 0;
    while n < k
      invariant n <= k && |Edges(fs, n)| == AllPairs(fs, n)
    {
      EdgeCountStep(fs, n + 1);
      n := n + 1;
    }
  }

  // ---------------------------------------------------------------------------
  // The component's graph state
  // ---------------------------------------------------------------------------

  function ParsedAll(files: seq<Upload>): (fs: seq<FileNode>)
    ensures |fs| == |files|
    ensures forall i :: 0 <= i < |files| ==> fs[i] == Parsed(files[i])
  {
    seq(|files|, i requires 0 <= i < |files| => Parsed(files[i]))
  }

  /** The `nodes` and `edges` state of the component. */
  class CodeFlowView {
    var nodes: seq<GraphNode>
    var edges: seq<GraphEdge>

    constructor()
      ensures nodes == [] && edges == []
    {
      nodes := [];
      edges := [];
    }

    /** The effect on `files`: nothing for an empty list, otherwise the
        files are parsed and the graph replaced. */
    method Refresh(files: seq<Upload>)
      modifies this
      ensures |files| == 0 ==> nodes == old(nodes) && edges == old(edges)
      ensures |files| > 0 ==> nodes == Nodes(ParsedAll(files), |files|, CeilSqrt(|files|))
      ensures |files| > 0 ==> edges == Edges(ParsedAll(files), |files|)
    {
      if |files| == 0 {
        return;
      }
      var fileNodes: seq<FileNode> := [];
      for i := 0 to |files|
        invariant fileNodes == ParsedAll(files[..i])
      {
        var node := ParseFileContent(files[i]);
        assert ParsedAll(files[..i + 1]) == ParsedAll(files[..i]) + [node];
        fileNodes := fileNodes + [node];
      }
      assert files[..|files|] == files;
      nodes, edges := BuildGraph(fileNodes);
    }
  }
}
