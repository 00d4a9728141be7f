/** The heuristic symbol extractor of backend/processors/code_parser.py:
    language detection by file extension, the line-oriented template scan
    for JavaScript and TypeScript, the brace-depth counter that finds where a
    block ends, and the per-file dispatch.

    The regular-expression engine is a boundary: each template of the source
    is a `Matcher`, a function from a line to the text of its first capture
    group (None when `re.search` finds nothing). Python's `ast` module is a
    boundary too: `ParseCodeFile` receives its result as a function. */
module CodeParser {
  import opened Common

  datatype Language = Python | TypeScript | JavaScript

  /** LANGUAGE_EXTENSIONS, in its iteration order. */
  const LanguageExtensions: seq<(Language, seq<string>)> :=
    [(Python, [".py"]), (TypeScript, [".ts", ".tsx"]), (JavaScript, [".js", ".jsx"])]

  predicate HasExtension(filename: string, exts: seq<string>) {
    exists k :: 0 <= k < |exts| && EndsWith(filename, exts[k])
  }

  /** Index of the first table entry, from `from` on, whose extension list
      holds a suffix of `filename`; the table length when there is none. */
  function DetectIndex(filename: string, from: nat): (r: nat)
    requires from <= |LanguageExtensions|
    ensures from <= r <= |LanguageExtensions|
    ensures r < |LanguageExtensions| ==> HasExtension(filename, LanguageExtensions[r].1)
    ensures forall j :: from <= j < r ==> !HasExtension(filename, LanguageExtensions[j].1)
    decreases |LanguageExtensions| - from
  {
    if from == |LanguageExtensions| then from
    else if HasExtension(filename, LanguageExtensions[from].1) then from
    else DetectIndex(filename, from + 1)
  }

  /** detect_language: the first language in table order that claims a suffix
      of the file name, or None. */
  function DetectLanguage(filename: string): (r: Option<Language>)
    ensures r.None? <==> forall j :: 0 <= j < |LanguageExtensions| ==> !HasExtension(filename, LanguageExtensions[j].1)
    ensures r.Some? ==> exists j :: 0 <= j < |LanguageExtensions| && LanguageExtensions[j].0 == r.value
                         && HasExtension(filename, LanguageExtensions[j].1)
                         && forall i :: 0 <= i < j ==> !HasExtension(filename, LanguageExtensions[i].1)
  {
    var k := DetectIndex(filename, 0);
    if k < |LanguageExtensions| then Some(LanguageExtensions[k].0) else None
  }

  // ------------------------------------------------------------------ find_block_end

  /** The scan of find_block_end resumed at character j of line i, with the
      running brace count and the in_block flag. */
  function ScanFrom(lines: seq<string>, i: nat, j: nat, count: int, inBlock: bool): (r: nat)
    requires i <= |lines| && (i < |lines| ==> j <= |lines[i]|)
    ensures i < |lines| ==> i < r <= |lines|
    ensures i == |lines| ==> r == |lines|
    decreases |lines| - i, if i < |lines| then |lines[i]| - j else 0
  {
    if i == |lines| then |lines|
    else if j == |lines[i]| then ScanFrom(lines, i + 1, 0, count, inBlock)
    else if lines[i][j] == '{' then ScanFrom(lines, i, j + 1, count + 1, true)
    else if lines[i][j] == '}' then
      if inBlock && count - 1 == 0 then i + 1
      else ScanFrom(lines, i, j + 1, count - 1, inBlock)
    else ScanFrom(lines, i, j + 1, count, inBlock)
  }

  /** find_block_end(lines, start): the 1-based line of the closing brace, or len(lines). */
  function BlockEnd(lines: seq<string>, start: nat): (r: nat)
    ensures start < |lines| ==> start < r <= |lines|
    ensures start >= |lines| ==> r == |lines|
  {
    if start >= |lines| then |lines| else ScanFrom(lines, start, 0, 0, false)
  }

  /** find_block_end as the source writes it: a loop over lines and characters. */
  method FindBlockEnd(lines: seq<string>, startIdx: nat) returns (r: nat)
    ensures r == BlockEnd(lines, startIdx)
    ensures startIdx < |lines| ==> startIdx < r <= |lines|
  {
    var braceCount := 0;
    var inBlock := false;
    var i := startIdx;
    while i < |lines|
      invariant startIdx <= i && (i <= |lines| || i == startIdx)
      invariant i <= |lines| ==> BlockEnd(lines, startIdx) == ScanFrom(lines, i, 0, braceCount, inBlock)
      decreases |lines| - i
    {
      var line := lines[i];
      var j := 0;
      while j < |line|
        invariant 0 <= j <= |line|
        invariant BlockEnd(lines, startIdx) == ScanFrom(lines, i, j, braceCount, inBlock)
      {
        if line[j] == '{' {
          braceCount := braceCount + 1;
          inBlock := true;
        } else if line[j] == '}' {
          braceCount := braceCount - 1;
          if inBlock && braceCount == 0 {
            return i + 1;
          }
        }
        j := j + 1;
      }
      i := i + 1;
    }
    return |lines|;
  }

  // A closed form of the scan: the depth of the text read so far.

  function Delta(c: char): int {
    if c == '{' then 1 else if c == '}' then -1 else 0
  }

  /** Number of '{' minus number of '}' in cs. */
  function Depth(cs: seq<char>): int {
    if cs == [] then 0 else Depth(cs[..|cs| - 1]) + Delta(cs[|cs| - 1])
  }

  /** The characters the scan has read before character b of line a. */
  function Before(lines: seq<string>, start: nat, a: nat, b: nat): seq<char>
    requires start <= a < |lines| && b <= |lines[a]|
  {
    Flatten(lines[start..a]) + lines[a][..b]
  }

  /** Character b of line a is a '}' that brings the depth back to 0 after some '{'. */
  predicate ClosesAt(lines: seq<string>, start: nat, a: nat, b: nat) {
    start <= a < |lines| && b < |lines[a]| && lines[a][b] == '}'
    && Depth(Before(lines, start, a, b)) == 1 && '{' in Before(lines, start, a, b)
  }

  predicate PosLe(a: nat, b: nat, c: nat, d: nat) {
    a < c || (a == c && b <= d)
  }

  lemma BeforeNext(lines: seq<string>, start: nat, a: nat, b: nat)
    requires start <= a < |lines| && b < |lines[a]|
    ensures Before(lines, start, a, b + 1) == Before(lines, start, a, b) + [lines[a][b]]
  {
    assert lines[a][..b + 1] == lines[a][..b] + [lines[a][b]];
  }

  lemma BeforeNextLine(lines: seq<string>, start: nat, a: nat)
    requires start <= a && a + 1 < |lines|
    ensures Before(lines, start, a + 1, 0) == Before(lines, start, a, |lines[a]|)
  {
    assert lines[start..a + 1][..a - start] == lines[start..a];
    assert lines[a][..|lines[a]|] == lines[a];
  }

  lemma DepthSnoc(p: seq<char>, c: char)
    ensures Depth(p + [c]) == Depth(p) + Delta(c)
  {
    assert (p + [c])[..|p|] == p;
  }

  /** One step of the scan keeps the count and the flag equal to what the text
      read so far gives. */
  lemma ScanStep(lines: seq<string>, start: nat, i: nat, j: nat)
    requires start <= i < |lines| && j < |lines[i]|
    ensures var pre := Before(lines, start, i, j);
            var c := lines[i][j];
            Depth(Before(lines, start, i, j + 1)) == Depth(pre) + Delta(c)
            && (('{' in Before(lines, start, i, j + 1)) <==> ('{' in pre || c == '{'))
            && (ClosesAt(lines, start, i, j) <==> c == '}' && '{' in pre && Depth(pre) == 1)
  {
    BeforeNext(lines, start, i, j);
    DepthSnoc(Before(lines, start, i, j), lines[i][j]);
  }

  /** Resumed at (i, j) with the count and flag that the text read so far gives,
      and with no closing brace from (i, j) on, the scan returns len(lines). */
  lemma {:induction false} ScanUnclosed(lines: seq<string>, start: nat, i: nat, j: nat)
    requires start <= i < |lines| && j <= |lines[i]|
    requires forall a: nat, b: nat :: ClosesAt(lines, start, a, b) ==> !PosLe(i, j, a, b)
    ensures ScanFrom(lines, i, j, Depth(Before(lines, start, i, j)), '{' in Before(lines, start, i, j)) == |lines|
    decreases |lines| - i, |lines[i]| - j
  {
    if j == |lines[i]| {
      if i + 1 < |lines| {
        BeforeNextLine(lines, start, i);
        ScanUnclosed(lines, start, i + 1, 0);
      }
    } else {
      ScanStep(lines, start, i, j);
      assert !ClosesAt(lines, start, i, j);
      ScanUnclosed(lines, start, i, j + 1);
    }
  }

  /** Resumed at (i, j) with the count and flag that the text read so far gives,
      the scan returns the line after the first closing brace at or after (i, j). */
  lemma {:induction false} ScanFirstClose(lines: seq<string>, start: nat, i: nat, j: nat, ci: nat, cj: nat)
    requires start <= i < |lines| && j <= |lines[i]|
    requires ClosesAt(lines, start, ci, cj) && PosLe(i, j, ci, cj)
    requires forall a: nat, b: nat :: ClosesAt(lines, start, a, b) && PosLe(i, j, a, b) ==> PosLe(ci, cj, a, b)
    ensures ScanFrom(lines, i, j, Depth(Before(lines, start, i, j)), '{' in Before(lines, start, i, j)) == ci + 1
    decreases |lines| - i, |lines[i]| - j
  {
    if j == |lines[i]| {
      assert i < ci;
      BeforeNextLine(lines, start, i);
      ScanFirstClose(lines, start, i + 1, 0, ci, cj);
    } else {
      ScanStep(lines, start, i, j);
      if i == ci && j == cj {
      } else {
        assert !ClosesAt(lines, start, i, j);
        ScanFirstClose(lines, start, i, j + 1, ci, cj);
      }
    }
  }

  /** find_block_end returns i+1 for the first '}' that brings the brace count to 0
      after some '{' has been seen, counting from line `start`. */
  lemma BlockEndAtFirstClose(lines: seq<string>, start: nat, ci: nat, cj: nat)
    requires ClosesAt(lines, start, ci, cj)
    requires forall a: nat, b: nat :: ClosesAt(lines, start, a, b) ==> PosLe(ci, cj, a, b)
    ensures BlockEnd(lines, start) == ci + 1
  {
    assert Before(lines, start, start, 0) == [];
    ScanFirstClose(lines, start, start, 0, ci, cj);
  }

  /** When no brace ever closes the block, find_block_end returns len(lines). */
  lemma BlockEndUnclosed(lines: seq<string>, start: nat)
    requires forall a: nat, b: nat :: !ClosesAt(lines, start, a, b)
    ensures BlockEnd(lines, start) == |lines|
  {
    if start < |lines| {
      assert Before(lines, start, start, 0) == [];
      ScanUnclosed(lines, start, start, 0);
    }
  }

  // ------------------------------------------------------------------ parse_js_ts_with_regex

  /** One regex template: the first capture group of re.search on a line. */
  type Matcher = string -> Option<string>

  datatype EntityKind = Function | Class | Interface | TypeAlias | Enum

  /** One extracted code entity (the fields of the source's dict that vary). */
  datatype Entity = Entity(kind: EntityKind, name: string, language: Language, path: string,
                           code: string, startLine: nat, endLine: nat)

  /** Names the function templates may not yield. */
  const Keywords: seq<string> := ["if", "for", "while", "switch", "catch"]

  predicate Accepted(m: Option<string>, rejected: seq<string>) {
    m.Some? && m.value != [] && m.value !in rejected
  }

  /** Index of the first template whose capture is accepted; |pats| when none is. */
  function FirstMatch(line: string, pats: seq<Matcher>, rejected: seq<string>): (r: nat)
    ensures r <= |pats|
    ensures r < |pats| ==> Accepted(pats[r](line), rejected)
    ensures forall k :: 0 <= k < r ==> !Accepted(pats[k](line), rejected)
    decreases |pats|
  {
    if pats == [] then 0
    else if Accepted(pats[0](line), rejected) then 0
    else 1 + FirstMatch(line, pats[1..], rejected)
  }

  /** The class-like kind is chosen by substring tests on the whole line. */
  function ClassKind(line: string): EntityKind {
    if Contains(line, "interface") then Interface
    else if Contains(line, "type") then TypeAlias
    else if Contains(line, "enum") then Enum
    else Class
  }

  // Blank lines, and lines whose stripped text starts with a line or block comment opener, are skipped.
  predicate Skipped(line: string) {
    var t := Strip(line);
    t == [] || StartsWith(t, "//") || StartsWith(t, "/*")
  }

  /** The function entity of line i (0-based): from the first function template
      whose capture is not a rejected keyword, if any. */
  function FunctionEntity(lines: seq<string>, i: nat, language: Language, path: string,
                          fnPats: seq<Matcher>): seq<Entity>
    requires i < |lines|
  {
    var line := lines[i];
    var f := FirstMatch(line, fnPats, Keywords);
    if f < |fnPats| then
      var end := BlockEnd(lines, i);
      [Entity(Function, fnPats[f](line).value, language, path, Join(lines[i..end], "\n"), i + 1, end)]
    else []
  }

  /** The class-like entity of line i (0-based): from the first class template
      that captures a name, if any. */
  function ClassEntity(lines: seq<string>, i: nat, language: Language, path: string,
                       clsPats: seq<Matcher>): seq<Entity>
    requires i < |lines|
  {
    var line := lines[i];
    var c := FirstMatch(line, clsPats, []);
    if c < |clsPats| then
      var end := BlockEnd(lines, i);
      [Entity(ClassKind(line), clsPats[c](line).value, language, path, Join(lines[i..end], "\n"), i + 1, end)]
    else []
  }

  /** The entities one line contributes: at most one function, then at most one class-like. */
  function LineEntities(lines: seq<string>, i: nat, language: Language, path: string,
                        fnPats: seq<Matcher>, clsPats: seq<Matcher>): seq<Entity>
    requires i < |lines|
  {
    if Skipped(lines[i]) then []
    else FunctionEntity(lines, i, language, path, fnPats) + ClassEntity(lines, i, language, path, clsPats)
  }

  /** The entities of lines[..n], in line order. */
  function EntitiesUpTo(lines: seq<string>, n: nat, language: Language, path: string,
                        fnPats: seq<Matcher>, clsPats: seq<Matcher>): seq<Entity>
    requires n <= |lines|
  {
    if n == 0 then []
    else EntitiesUpTo(lines, n - 1, language, path, fnPats, clsPats)
         + LineEntities(lines, n - 1, language, path, fnPats, clsPats)
  }

  /** parse_js_ts_with_regex as a value. */
  function JsTsEntities(source: string, path: string, language: Language,
                        fnPats: seq<Matcher>, clsPats: seq<Matcher>): seq<Entity>
  {
    var lines := Split(source, '\n');
    EntitiesUpTo(lines, |lines|, language, path, fnPats, clsPats)
  }

  /** The first loop of the line body: try the function templates in order and
      stop at the first whose capture is not a rejected keyword. */
  method ScanFunctionTemplates(lines: seq<string>, i: nat, language: Language, path: string,
                               fnPats: seq<Matcher>) returns (found: seq<Entity>)
    requires i < |lines|
    ensures found == FunctionEntity(lines, i, language, path, fnPats)
  {
    var line := lines[i];
    var p := 0;
    while p < |fnPats|
      invariant 0 <= p <= |fnPats|
      invariant forall k :: 0 <= k < p ==> !Accepted(fnPats[k](line), Keywords)
    {
      var m := fnPats[p](line);
      if m.Some? && m.value != [] && m.value !in Keywords {
        var endLine := FindBlockEnd(lines, i);
        assert FirstMatch(line, fnPats, Keywords) == p;
        return [Entity(Function, m.value, language, path, Join(lines[i..endLine], "\n"), i + 1, endLine)];
      }
      p := p + 1;
    }
    return [];
  }

  /** The second loop of the line body: try the class templates in order and
      stop at the first that captures a name. */
  method ScanClassTemplates(lines: seq<string>, i: nat, language: Language, path: string,
                            clsPats: seq<Matcher>) returns (found: seq<Entity>)
    requires i < |lines|
    ensures found == ClassEntity(lines, i, language, path, clsPats)
  {
    var line := lines[i];
    var q := 0;
    while q < |clsPats|
      invariant 0 <= q <= |clsPats|
      invariant forall k :: 0 <= k < q ==> !Accepted(clsPats[k](line), [])
    {
      var m := clsPats[q](line);
      if m.Some? && m.value != [] {
        var endLine := FindBlockEnd(lines, i);
        assert FirstMatch(line, clsPats, []) == q;
        return [Entity(ClassKind(line), m.value, language, path, Join(lines[i..endLine], "\n"), i + 1, endLine)];
      }
      q := q + 1;
    }
    return [];
  }

  /** The body of the line loop: skipped lines contribute nothing, the others
      a function entity and then a class-like entity. */
  method ParseLine(lines: seq<string>, i: nat, path: string, language: Language,
                   fnPats: seq<Matcher>, clsPats: seq<Matcher>) returns (here: seq<Entity>)
    requires i < |lines|
    ensures here == LineEntities(lines, i, language, path, fnPats, clsPats)
  {
    here := [];
    if !Skipped(lines[i]) {
      var f := ScanFunctionTemplates(lines, i, language, path, fnPats);
      var c := ScanClassTemplates(lines, i, language, path, clsPats);
      here := f + c;
    }
  }

  /** parse_js_ts_with_regex: the loop over the lines of the source. */
  method ParseLines(lines: seq<string>, path: string, language: Language,
                    fnPats: seq<Matcher>, clsPats: seq<Matcher>) returns (extracted: seq<Entity>)
    ensures extracted == EntitiesUpTo(lines, |lines|, language, path, fnPats, clsPats)
  {
    extracted := [];
    for i := 0 to |lines|
      invariant extracted == EntitiesUpTo(lines, i, language, path, fnPats, clsPats)
    {
      var here := ParseLine(lines, i, path, language, fnPats, clsPats);
      extracted := extracted + here;
    }
  }

  /** parse_js_ts_with_regex: split the source into lines and scan them. */
  method ParseJsTs(source: string, path: string, language: Language,
                   fnPats: seq<Matcher>, clsPats: seq<Matcher>) returns (extracted: seq<Entity>)
    ensures extracted == JsTsEntities(source, path, language, fnPats, clsPats)
  {
    extracted := ParseLines(Split(source, '\n'), path, language, fnPats, clsPats);
  }

  /** What every extracted entity satisfies: it comes from a line that is not
      blank or a comment, its start line is that line (1-based), its end line is
      find_block_end from there, its code is the lines in between; a function name
      is never a rejected keyword, and a class-like kind follows the substring tests. */
  ghost predicate WellFormedEntity(lines: seq<string>, e: Entity) {
    1 <= e.startLine <= |lines| && !Skipped(lines[e.startLine - 1])
    && SpansBlock(lines, e) && NameFits(lines, e)
  }

  /** The entity's end line is find_block_end from its start, and its code is the lines in between. */
  ghost predicate SpansBlock(lines: seq<string>, e: Entity)
    requires 1 <= e.startLine <= |lines|
  {
    e.endLine == BlockEnd(lines, e.startLine - 1) && e.startLine <= e.endLine <= |lines|
    && e.code == Join(lines[e.startLine - 1..e.endLine], "\n")
  }

  /** A name is never empty, a function is never named after a rejected keyword,
      and a class-like kind follows the substring tests on its line. */
  ghost predicate NameFits(lines: seq<string>, e: Entity)
    requires 1 <= e.startLine <= |lines|
  {
    e.name != []
    && (e.kind == Function ==> e.name !in Keywords)
    && (e.kind != Function ==> e.kind == ClassKind(lines[e.startLine - 1]))
  }

  lemma FunctionEntityShape(lines: seq<string>, i: nat, language: Language, path: string, fnPats: seq<Matcher>)
    requires i < |lines| && !Skipped(lines[i])
    ensures var f := FunctionEntity(lines, i, language, path, fnPats);
      |f| <= 1 && (|f| == 1 ==> f[0].kind == Function && f[0].startLine == i + 1 && WellFormedEntity(lines, f[0]))
  {
    var line := lines[i];
    var k := FirstMatch(line, fnPats, Keywords);
    if k < |fnPats| {
      assert Accepted(fnPats[k](line), Keywords);
    }
  }

  lemma ClassEntityShape(lines: seq<string>, i: nat, language: Language, path: string, clsPats: seq<Matcher>)
    requires i < |lines| && !Skipped(lines[i])
    ensures var c := ClassEntity(lines, i, language, path, clsPats);
      |c| <= 1 && (|c| == 1 ==> c[0].kind != Function && c[0].startLine == i + 1 && WellFormedEntity(lines, c[0]))
  {
    var line := lines[i];
    var k := FirstMatch(line, clsPats, []);
    if k < |clsPats| {
      assert Accepted(clsPats[k](line), []);
    }
  }

  /** At most two entities, all starting at `line`, and a function before a
      class-like one when there are two. */
  predicate LineShaped(here: seq<Entity>, line: nat) {
    |here| <= 2
    && (forall k :: 0 <= k < |here| ==> here[k].startLine == line)
    && (|here| == 2 ==> here[0].kind == Function && here[1].kind != Function)
  }

  /** A line yields at most two entities, both well formed and starting at that
      line, and when it yields two the function comes first. */
  lemma LineEntitiesShape(lines: seq<string>, i: nat, language: Language, path: string,
                          fnPats: seq<Matcher>, clsPats: seq<Matcher>)
    requires i < |lines|
    ensures var here := LineEntities(lines, i, language, path, fnPats, clsPats);
      LineShaped(here, i + 1) && AllWellFormed(lines, here)
  {
    if Skipped(lines[i]) {
      assert LineEntities(lines, i, language, path, fnPats, clsPats) == [];
    } else {
      FunctionEntityShape(lines, i, language, path, fnPats);
      ClassEntityShape(lines, i, language, path, clsPats);
      var f := FunctionEntity(lines, i, language, path, fnPats);
      var c := ClassEntity(lines, i, language, path, clsPats);
      var here := f + c;
      assert here == LineEntities(lines, i, language, path, fnPats, clsPats);
      forall k | 0 <= k < |here|
        ensures WellFormedEntity(lines, here[k]) && here[k].startLine == i + 1
      {
        if k < |f| { assert here[k] == f[0]; } else { assert here[k] == c[0]; }
      }
    }
  }

  /** Start lines never decrease, and two entities of one line are a function
      followed by a class-like entity. */
  predicate InLineOrder(r: seq<Entity>) {
    (forall a, b :: 0 <= a < b < |r| ==> r[a].startLine <= r[b].startLine)
    && (forall a, b :: 0 <= a < b < |r| && r[a].startLine == r[b].startLine ==>
          r[a].kind == Function && r[b].kind != Function)
  }

  /** Every start line lies in 1..n. */
  predicate StartsIn(r: seq<Entity>, n: nat) {
    forall k :: 0 <= k < |r| ==> 1 <= r[k].startLine <= n
  }

  /** The entities of line m + 1 appended after those of lines 1..m keep
      line order and start in 1..m + 1. */
  lemma AppendLine(prev: seq<Entity>, here: seq<Entity>, m: nat)
    requires InLineOrder(prev) && StartsIn(prev, m) && LineShaped(here, m + 1)
    ensures InLineOrder(prev + here) && StartsIn(prev + here, m + 1)
  {
    var r := prev + here;
    forall k | 0 <= k < |r|
      ensures r[k] == if k < |prev| then prev[k] else here[k - |prev|]
    {
    }
    forall a, b | 0 <= a < b < |r|
      ensures r[a].startLine <= r[b].startLine
      ensures r[a].startLine == r[b].startLine ==> r[a].kind == Function && r[b].kind != Function
    {
      if b < |prev| {
        assert r[a] == prev[a] && r[b] == prev[b];
      } else if a >= |prev| {
        assert r[a] == here[a - |prev|] && r[b] == here[b - |prev|];
      } else {
        assert r[a] == prev[a] && r[b] == here[b - |prev|];
      }
    }
  }

  /** Entities come out in line order: start lines never decrease, and a line
      yields at most one function and at most one class-like entity, the function first. */
  lemma {:induction false} EntitiesInLineOrder(lines: seq<string>, n: nat, language: Language, path: string,
                                               fnPats: seq<Matcher>, clsPats: seq<Matcher>)
    requires n <= |lines|
    ensures var r := EntitiesUpTo(lines, n, language, path, fnPats, clsPats);
      InLineOrder(r) && StartsIn(r, n)
  {
    if n > 0 {
      var m := n - 1;
      EntitiesInLineOrder(lines, m, language, path, fnPats, clsPats);
      LineEntitiesShape(lines, m, language, path, fnPats, clsPats);
      AppendLine(EntitiesUpTo(lines, m, language, path, fnPats, clsPats),
                 LineEntities(lines, m, language, path, fnPats, clsPats), m);
    }
  }

  ghost predicate AllWellFormed(lines: seq<string>, r: seq<Entity>) {
    forall k :: 0 <= k < |r| ==> WellFormedEntity(lines, r[k])
  }

  lemma AllWellFormedAppend(lines: seq<string>, prev: seq<Entity>, here: seq<Entity>)
    requires AllWellFormed(lines, prev) && AllWellFormed(lines, here)
    ensures AllWellFormed(lines, prev + here)
  {
    var r := prev + here;
    forall k | 0 <= k < |r|
      ensures WellFormedEntity(lines, r[k])
    {
      if k < |prev| {
        assert r[k] == prev[k];
      } else {
        assert r[k] == here[k - |prev|];
      }
    }
  }

  /** Every extracted entity is well formed. */
  lemma {:induction false} EntitiesWellFormed(lines: seq<string>, n: nat, language: Language, path: string,
                                              fnPats: seq<Matcher>, clsPats: seq<Matcher>)
    requires n <= |lines|
    ensures AllWellFormed(lines, EntitiesUpTo(lines, n, language, path, fnPats, clsPats))
  {
    if n > 0 {
      EntitiesWellFormed(lines, n - 1, language, path, fnPats, clsPats);
      LineEntitiesShape(lines, n - 1, language, path, fnPats, clsPats);
      AllWellFormedAppend(lines, EntitiesUpTo(lines, n - 1, language, path, fnPats, clsPats),
                          LineEntities(lines, n - 1, language, path, fnPats, clsPats));
    }
  }

  // ------------------------------------------------------------------ parse_code_file

  /** parse_code_file: [] for an unsupported extension or an unreadable file;
      the AST parser's entities (or [] when it raised) for Python; the template
      scan for JavaScript and TypeScript. `content` is the file's text, None when
      it cannot be read. */
  method ParseCodeFile(filepath: string, content: Option<string>,
                       pythonParse: (string, string) -> Option<seq<Entity>>,
                       fnPats: seq<Matcher>, clsPats: seq<Matcher>) returns (r: seq<Entity>)
    ensures DetectLanguage(filepath).None? || content.None? ==> r == []
    ensures DetectLanguage(filepath) == Some(Python) && content.Some? ==>
              r == pythonParse(content.value, filepath).GetOr([])
    ensures DetectLanguage(filepath).Some? && DetectLanguage(filepath) != Some(Python) && content.Some? ==>
              r == JsTsEntities(content.value, filepath, DetectLanguage(filepath).value, fnPats, clsPats)
  {
    var language := DetectLanguage(filepath);
    if language.None? {
      return [];
    }
    if content.None? {
      return [];
    }
    if language.value == Python {
      r := pythonParse(content.value, filepath).GetOr([]);
    } else {
      r := ParseJsTs(content.value, filepath, language.value, fnPats, clsPats);
    }
  }
}
