/** The handful of JavaScript string operations the analyser and the graph
    builder rely on, over `seq<char>`: `startsWith`, `endsWith`, `includes`,
    `split` on one character, `join`, `trim`, an ASCII `toLowerCase`, and the
    maximal character-class runs that the regular expressions are built from. */
module Strings {

  import opened Wrappers

  // ---------------------------------------------------------------------------
  // Character classes
  // ---------------------------------------------------------------------------

  /** White space as both `String.prototype.trim` and the regex class `\s`
      understand it (WhiteSpace and LineTerminator of ECMAScript). */
  predicate IsSpace(c: char) {
    c == '\t' || c == '\n' || c == '\U{B}' || c == '\U{C}' || c == '\r' || c == ' '
    || c == '\U{A0}' || c == '\U{1680}' || ('\U{2000}' <= c <= '\U{200A}')
    || c == '\U{2028}' || c == '\U{2029}' || c == '\U{202F}' || c == '\U{205F}'
    || c == '\U{3000}' || c == '\U{FEFF}'
  }

  /** The regex class `\w`: ASCII letters, digits and underscore. */
  predicate IsWordChar(c: char) {
    ('a' <= c <= 'z') || ('A' <= c <= 'Z') || ('0' <= c <= '9') || c == '_'
  }

  lemma WordCharIsNotSpace(c: char)
    requires IsWordChar(c)
    ensures !IsSpace(c)
  {
  }

  predicate IsQuote(c: char) {
    c == '\'' || c == '"'
  }

  /** The bracket-free character classes that occur in the patterns. */
  datatype CharClass =
    | Word            // \w
    | Space           // \s
    | NotSpace        // \S
    | WordOrDot       // [\w.]
    | WordCommaSpace  // [\w,\s]
    | NotQuote        // [^'"]
    | NotCloseBrace   // [^}]
    | NotCloseParen   // [^)]
    | NotAngleOrQuote // [^>"]
    | NotDoubleQuote  // [^"]

  predicate InClass(cls: CharClass, c: char) {
    match cls
    case Word => IsWordChar(c)
    case Space => IsSpace(c)
    case NotSpace => !IsSpace(c)
    case WordOrDot => IsWordChar(c) || c == '.'
    case WordCommaSpace => IsWordChar(c) || c == ',' || IsSpace(c)
    case NotQuote => !IsQuote(c)
    case NotCloseBrace => c != '}'
    case NotCloseParen => c != ')'
    case NotAngleOrQuote => c != '>' && c != '"'
    case NotDoubleQuote => c != '"'
  }

  predicate AllIn(cls: CharClass, s: string) {
    forall k :: 0 <= k < |s| ==> InClass(cls, s[k])
  }

  /** End of the longest run of `cls` characters starting at `i`: what a
      greedy `cls*` consumes there. */
  function RunEnd(s: string, i: nat, cls: CharClass): (j: nat)
    requires i <= |s|
    ensures i <= j <= |s|
    decreases |s| - i
  {
    if i < |s| && InClass(cls, s[i]) then RunEnd(s, i + 1, cls) else i
  }

  /** The run is maximal: every character in it is in the class, and the one
      after it (if any) is not. */
  lemma {:induction false} RunEndSpec(s: string, i: nat, cls: CharClass)
    requires i <= |s|
    ensures forall k :: i <= k < RunEnd(s, i, cls) ==> InClass(cls, s[k])
    ensures RunEnd(s, i, cls) == |s| || !InClass(cls, s[RunEnd(s, i, cls)])
    decreases |s| - i
  {
    if i < |s| && InClass(cls, s[i]) {
      RunEndSpec(s, i + 1, cls);
    }
  }

  /** The run read back as a string lies wholly in the class. */
  lemma RunSlice(s: string, i: nat, cls: CharClass)
    requires i <= |s|
    ensures AllIn(cls, s[i..RunEnd(s, i, cls)])
  {
    RunEndSpec(s, i, cls);
  }

  /** A maximal run is determined by where it stops. */
  lemma {:induction false} RunEndIs(s: string, i: nat, k: nat, cls: CharClass)
    requires i <= k <= |s|
    requires forall m :: i <= m < k ==> InClass(cls, s[m])
    requires k == |s| || !InClass(cls, s[k])
    ensures RunEnd(s, i, cls) == k
    decreases k - i
  {
    if i < k {
      RunEndIs(s, i + 1, k, cls);
    }
  }

  /** Greedy `cls+`: the end of a run of at least one character. */
  function Run1(s: string, i: nat, cls: CharClass): (r: Option<nat>)
    requires i <= |s|
    ensures r.Some? ==> i < r.value <= |s|
  {
    var j := RunEnd(s, i, cls);
    if j > i then Some(j) else None
  }

  /** A literal at position `i`: the position after it, if it is there. */
  function Lit(s: string, i: nat, w: string): (r: Option<nat>)
    requires i <= |s|
    ensures r.Some? ==> r.value == i + |w| <= |s|
  {
    if i + |w| <= |s| && s[i..i + |w|] == w then Some(i + |w|) else None
  }

  /** One character of a given set at position `i`. */
  function CharIn(s: string, i: nat, cs: set<char>): (r: Option<nat>)
    requires i <= |s|
    ensures r.Some? ==> r.value == i + 1 <= |s|
  {
    if i < |s| && s[i] in cs then Some(i + 1) else None
  }

  // ---------------------------------------------------------------------------
  // startsWith, endsWith, includes
  // ---------------------------------------------------------------------------

  predicate HasPrefix(s: string, p: string) {
    |p| <= |s| && s[..|p|] == p
  }

  predicate HasSuffix(s: string, p: string) {
    |p| <= |s| && s[|s| - |p|..] == p
  }

  /** Two suffixes of one string agree on their last character. */
  lemma SuffixLastChar(s: string, p: string)
    requires HasSuffix(s, p) && p != []
    ensures s[|s| - 1] == p[|p| - 1]
  {
    assert s[|s| - |p|..][|p| - 1] == s[|s| - 1];
  }

  predicate OccursAt(s: string, p: string, i: int) {
    0 <= i && i + |p| <= |s| && s[i..i + |p|] == p
  }

  /** `s.includes(p)`. */
  function Contains(s: string, p: string): bool
    decreases |s|
  {
    HasPrefix(s, p) || (|s| > 0 && Contains(s[1..], p))
  }

  lemma {:induction false} ContainsIff(s: string, p: string)
    ensures Contains(s, p) <==> exists i :: OccursAt(s, p, i)
    decreases |s|
  {
    if HasPrefix(s, p) {
      assert OccursAt(s, p, 0);
    } else if |s| > 0 {
      ContainsIff(s[1..], p);
      if Contains(s[1..], p) {
        var i :| OccursAt(s[1..], p, i);
        assert s[i + 1..i + 1 + |p|] == s[1..][i..i + |p|];
        assert OccursAt(s, p, i + 1);
      }
      if exists i :: OccursAt(s, p, i) {
        var i :| OccursAt(s, p, i);
        assert i != 0;
        assert s[1..][i - 1..i - 1 + |p|] == s[i..i + |p|];
        assert OccursAt(s[1..], p, i - 1);
      }
    }
  }

  lemma ContainsEmpty(s: string)
    ensures Contains(s, "")
  {
    assert HasPrefix(s, "");
  }

  /** What `a` contains, `a + b` contains too. */
  lemma ContainsInLeft(a: string, b: string, p: string)
    requires Contains(a, p)
    ensures Contains(a + b, p)
  {
    ContainsIff(a, p);
    var i :| OccursAt(a, p, i);
    assert (a + b)[i..i + |p|] == a[i..i + |p|];
    assert OccursAt(a + b, p, i);
    ContainsIff(a + b, p);
  }

  /** What `b` contains, `a + b` contains too. */
  lemma ContainsInRight(a: string, b: string, p: string)
    requires Contains(b, p)
    ensures Contains(a + b, p)
  {
    ContainsIff(b, p);
    var i :| OccursAt(b, p, i);
    assert (a + b)[|a| + i..|a| + i + |p|] == b[i..i + |p|];
    assert OccursAt(a + b, p, |a| + i);
    ContainsIff(a + b, p);
  }

  // ---------------------------------------------------------------------------
  // split and join
  // ---------------------------------------------------------------------------

  /** `s.split(sep)` for a one-character separator: never empty, and an
      empty string gives one empty segment. */
  function Split(s: string, sep: char): (parts: seq<string>)
    ensures |parts| >= 1
    decreases |s|
  {
    if s == [] then [[]]
    else
      var rest := Split(s[1..], sep);
      if s[0] == sep then [[]] + rest else [[s[0]] + rest[0]] + rest[1..]
  }

  function CountChar(s: string, c: char): nat
    decreases |s|
  {
    if s == [] then 0 else (if s[0] == c then 1 else 0) + CountChar(s[1..], c)
  }

  /** `parts.join(sep)`. */
  function Join(parts: seq<string>, sep: string): string
    decreases |parts|
  {
    if |parts| == 0 then ""
    else if |parts| == 1 then parts[0]
    else parts[0] + sep + Join(parts[1..], sep)
  }

  /** There is one more segment than there are separators. */
  lemma {:induction false} SplitLength(s: string, sep: char)
    ensures |Split(s, sep)| == CountChar(s, sep) + 1
    decreases |s|
  {
    if s != [] {
      SplitLength(s[1..], sep);
    }
  }

  /** No segment contains the separator. */
  lemma {:induction false} SplitSegments(s: string, sep: char)
    ensures forall k :: 0 <= k < |Split(s, sep)| ==> sep !in Split(s, sep)[k]
    decreases |s|
  {
    if s != [] {
      SplitSegments(s[1..], sep);
      var rest := Split(s[1..], sep);
      if s[0] != sep {
        assert sep !in rest[0];
        assert forall k :: 1 <= k < |rest| ==> sep !in rest[k];
      }
    }
  }

  /** Joining the segments with the separator gives the string back. */
  lemma {:induction false} JoinSplit(s: string, sep: char)
    ensures Join(Split(s, sep), [sep]) == s
    decreases |s|
  {
    if s != [] {
      JoinSplit(s[1..], sep);
      var rest := Split(s[1..], sep);
      if s[0] == sep {
        assert Split(s, sep) == [[]] + rest;
        assert ([[]] + rest)[1..] == rest;
        assert Join(Split(s, sep), [sep]) == [] + [sep] + Join(rest, [sep]);
      } else {
        var parts := [[s[0]] + rest[0]] + rest[1..];
        assert parts[1..] == rest[1..];
        if |rest| == 1 {
          assert Join(rest, [sep]) == rest[0];
        } else {
          assert Join(rest, [sep]) == rest[0] + [sep] + Join(rest[1..], [sep]);
        }
      }
    }
  }

  /** Joining one more part appends the separator and that part. */
  lemma {:induction false} JoinSnoc(parts: seq<string>, p: string, sep: string)
    requires parts != []
    ensures Join(parts + [p], sep) == Join(parts, sep) + sep + p
    decreases |parts|
  {
    if |parts| > 1 {
      JoinSnoc(parts[1..], p, sep);
      assert (parts + [p])[1..] == parts[1..] + [p];
    } else {
      assert (parts + [p])[1..] == [p];
    }
  }

  /** The segment before the first `sep` (the whole string if there is none):
      `s.split(sep)[0]`. */
  function FirstSegment(s: string, sep: char): string {
    Split(s, sep)[0]
  }

  lemma {:induction false} FirstSegmentSpec(s: string, sep: char)
    ensures HasPrefix(s, FirstSegment(s, sep))
    ensures sep !in FirstSegment(s, sep)
    ensures FirstSegment(s, sep) == s || s[|FirstSegment(s, sep)|] == sep
    decreases |s|
  {
    if s != [] && s[0] != sep {
      FirstSegmentSpec(s[1..], sep);
      var tail := FirstSegment(s[1..], sep);
      assert FirstSegment(s, sep) == [s[0]] + tail;
      assert s[..|tail| + 1] == [s[0]] + s[1..][..|tail|];
    }
  }

  /** The segment after the last `sep` (the whole string if there is none):
      `s.split(sep).pop()`. */
  function LastSegment(s: string, sep: char): string {
    var parts := Split(s, sep);
    parts[|parts| - 1]
  }

  lemma {:induction false} CountCharZero(s: string, c: char)
    ensures CountChar(s, c) == 0 <==> c !in s
    decreases |s|
  {
    if s != [] {
      CountCharZero(s[1..], c);
      assert c in s <==> s[0] == c || c in s[1..];
    }
  }

  /** A string without the separator is its own only segment. */
  lemma SplitWithoutSeparator(s: string, sep: char)
    requires sep !in s
    ensures Split(s, sep) == [s]
  {
    CountCharZero(s, sep);
    SplitLength(s, sep);
    JoinSplit(s, sep);
  }

  /** Dropping a first character keeps the last segment when a separator
      remains to be seen. */
  lemma LastSegmentTail(s: string, sep: char)
    requires s != [] && (s[0] == sep || sep in s[1..])
    ensures LastSegment(s, sep) == LastSegment(s[1..], sep)
  {
    var rest := Split(s[1..], sep);
    if s[0] != sep {
      SplitLength(s[1..], sep);
      CountCharZero(s[1..], sep);
      assert |rest| > 1;
      var parts := [[s[0]] + rest[0]] + rest[1..];
      assert Split(s, sep) == parts;
      assert parts[|parts| - 1] == rest[|rest| - 1];
    } else {
      assert Split(s, sep) == [[]] + rest;
    }
  }

  lemma {:induction false} LastSegmentSpec(s: string, sep: char)
    ensures HasSuffix(s, LastSegment(s, sep))
    ensures sep !in LastSegment(s, sep)
    ensures LastSegment(s, sep) == s || s[|s| - |LastSegment(s, sep)| - 1] == sep
    ensures sep !in s ==> LastSegment(s, sep) == s
    decreases |s|
  {
    if sep !in s {
      SplitWithoutSeparator(s, sep);
    } else {
      LastSegmentSpec(s[1..], sep);
      LastSegmentTail(s, sep);
      var last := LastSegment(s[1..], sep);
      assert s[|s| - |last|..] == s[1..][|s[1..]| - |last|..];
      if s[0] != sep {
        assert sep in s[1..];
        assert last != s[1..];
      }
    }
  }

  /** The last segment is whatever follows the last separator. */
  lemma LastSegmentAfter(a: string, b: string, sep: char)
    requires sep !in b
    ensures LastSegment(a + [sep] + b, sep) == b
  {
    var s := a + [sep] + b;
    var seg := LastSegment(s, sep);
    LastSegmentSpec(s, sep);
    assert s[|a|] == sep;
    assert forall k :: |a| < k < |s| ==> s[k] == b[k - |a| - 1];
    SuffixAvoids(s, seg, sep, |a|);
    assert |seg| <= |b|;
    assert s[|s| - |b|..] == b;
  }

  /** No position inside a separator-free suffix holds the separator. */
  lemma SuffixAvoids(s: string, seg: string, sep: char, k: nat)
    requires HasSuffix(s, seg) && sep !in seg && k < |s| && s[k] == sep
    ensures k < |s| - |seg|
  {
    assert forall j :: |s| - |seg| <= j < |s| ==> s[j] in seg;
  }

  // ---------------------------------------------------------------------------
  // trim and toLowerCase
  // ---------------------------------------------------------------------------

  function TrimLeft(s: string): string
    decreases |s|
  {
    if s != [] && IsSpace(s[0]) then TrimLeft(s[1..]) else s
  }

  /** What is left is a suffix that does not start with white space, and all
      that was dropped is white space. */
  lemma {:induction false} TrimLeftSpec(s: string)
    ensures |TrimLeft(s)| <= |s| && TrimLeft(s) == s[|s| - |TrimLeft(s)|..]
    ensures TrimLeft(s) == [] || !IsSpace(TrimLeft(s)[0])
    ensures forall k :: 0 <= k < |s| - |TrimLeft(s)| ==> IsSpace(s[k])
    decreases |s|
  {
    if s != [] && IsSpace(s[0]) {
      TrimLeftSpec(s[1..]);
    }
  }

  function TrimRight(s: string): string
    decreases |s|
  {
    if s != [] && IsSpace(s[|s| - 1]) then TrimRight(s[..|s| - 1]) else s
  }

  /** What is left is a prefix that does not end with white space, and all
      that was dropped is white space. */
  lemma {:induction false} TrimRightSpec(s: string)
    ensures |TrimRight(s)| <= |s| && TrimRight(s) == s[..|TrimRight(s)|]
    ensures TrimRight(s) == [] || !IsSpace(TrimRight(s)[|TrimRight(s)| - 1])
    ensures forall k :: |TrimRight(s)| <= k < |s| ==> IsSpace(s[k])
    decreases |s|
  {
    if s != [] && IsSpace(s[|s| - 1]) {
      TrimRightSpec(s[..|s| - 1]);
    }
  }

  /** `s.trim()`. */
  function Trim(s: string): string {
    TrimRight(TrimLeft(s))
  }

  /** The result neither starts nor ends with white space, is a piece of `s`
      whose removed ends are all white space, and a string without white
      space at either end is left as it is. */
  lemma TrimSpec(s: string)
    ensures Trim(s) == [] || (!IsSpace(Trim(s)[0]) && !IsSpace(Trim(s)[|Trim(s)| - 1]))
    ensures |TrimLeft(s)| <= |s| && |Trim(s)| <= |TrimLeft(s)|
    ensures Trim(s) == s[|s| - |TrimLeft(s)|..|s| - |TrimLeft(s)| + |Trim(s)|]
    ensures forall k :: 0 <= k < |s| - |TrimLeft(s)| ==> IsSpace(s[k])
    ensures forall k :: |s| - |TrimLeft(s)| + |Trim(s)| <= k < |s| ==> IsSpace(s[k])
    ensures (s == [] || (!IsSpace(s[0]) && !IsSpace(s[|s| - 1]))) ==> Trim(s) == s
  {
    var l := TrimLeft(s);
    TrimLeftSpec(s);
    TrimRightSpec(l);
    var r := TrimRight(l);
    var i := |s| - |l|;
    assert r == s[i..i + |r|];
    assert forall k :: i + |r| <= k < |s| ==> s[k] == l[k - i];
    if s != [] && !IsSpace(s[0]) && !IsSpace(s[|s| - 1]) {
      assert l == s;
      assert r == l;
    }
  }

  function LowerChar(c: char): char {
    if 'A' <= c <= 'Z' then (c as int + 32) as char else c
  }

  /** `s.toLowerCase()`, restricted to ASCII letters. */
  function Lower(s: string): (r: string)
    ensures |r| == |s|
    ensures forall k :: 0 <= k < |s| ==> r[k] == LowerChar(s[k])
  {
    seq(|s|, k requires 0 <= k < |s| => LowerChar(s[k]))
  }

  /** `s.replace(/[chars]/g, '')`: every character of the set removed. */
  function RemoveChars(s: string, cs: set<char>): (r: string)
    ensures forall c :: c in r ==> c in s && c !in cs
    ensures (forall c :: c in s ==> c !in cs) ==> r == s
    ensures |s| == 1 ==> r == (if s[0] in cs then [] else s)
    decreases |s|
  {
    if s == [] then []
    else (if s[0] in cs then [] else [s[0]]) + RemoveChars(s[1..], cs)
  }

  /** Removal works piece by piece: the characters outside the set are kept,
      in their order. */
  lemma {:induction false} RemoveCharsConcat(a: string, b: string, cs: set<char>)
    ensures RemoveChars(a + b, cs) == RemoveChars(a, cs) + RemoveChars(b, cs)
    decreases |a|
  {
    if a != [] {
      assert (a + b)[1..] == a[1..] + b;
      RemoveCharsConcat(a[1..], b, cs);
    } else {
      assert a + b == b;
    }
  }

  // ---------------------------------------------------------------------------
  // Insertion-ordered sets (a JavaScript Set read back with Array.from)
  // ---------------------------------------------------------------------------

  /** `set.add(x)` on a Set kept in insertion order. */
  function Insert(s: seq<string>, x: string): seq<string> {
    if x in s then s else s + [x]
  }

  /** Adding makes `x` a member and no other new member; adding a member
      changes nothing; the earlier order is kept. */
  lemma InsertSpec(s: seq<string>, x: string)
    ensures x in Insert(s, x)
    ensures forall y :: y in Insert(s, x) <==> y in s || y == x
    ensures x in s ==> Insert(s, x) == s
    ensures |s| <= |Insert(s, x)| && Insert(s, x)[..|s|] == s
  {
  }
}
