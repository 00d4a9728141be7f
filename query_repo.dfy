// The two read-only queries over the symbol store (backend/database/query_repo.py),
// as functions over the rows of the `symbols` and `files` tables.
//
// Both queries join `symbols` to `files` on file_id (an inner join, so a symbol
// whose file_id has no files row never shows up). The join is modelled as the
// nested loop SQLite runs for it: symbols in table order, and for each symbol
// the matching files rows in table order.

module SymbolQueries {
  import opened Common
  import opened Sorting
  import opened SymbolIndex

  // ------------------------------------------------------------------ LIKE

  /** The number of characters a LIKE pattern needs at least: one per
    * character other than `%`. */
  function FixedWidth(pattern: string): nat {
    if pattern == [] then 0 else (if pattern[0] == '%' then 0 else 1) + FixedWidth(pattern[1..])
  }

  /** SQLite's LIKE without an ESCAPE clause: `%` matches any run of
    * characters, `_` any single character, and other characters match
    * themselves up to ASCII case. */
  predicate Like(pattern: string, s: string)
    ensures Like(pattern, s) ==> |s| >= FixedWidth(pattern)
    decreases |pattern| + |s|
  {
    if pattern == [] then s == []
    else if pattern[0] == '%' then Like(pattern[1..], s) || (s != [] && Like(pattern, s[1..]))
    else
      s != [] && (pattern[0] == '_' || AsciiLower(pattern[0]) == AsciiLower(s[0]))
      && Like(pattern[1..], s[1..])
  }

  /** The argument the search binds to its LIKE placeholder. */
  function LikeArg(name: string): string {
    "%" + name + "%"
  }

  predicate NoWildcard(name: string) {
    '%' !in name && '_' !in name
  }

  /** `s` starts with `name`, ignoring ASCII case. */
  predicate CiPrefix(name: string, s: string) {
    |name| <= |s| && forall k :: 0 <= k < |name| ==> AsciiLower(name[k]) == AsciiLower(s[k])
  }

  /** `name` occurs in `s`, ignoring ASCII case. */
  predicate CiContains(s: string, name: string) {
    exists i :: 0 <= i <= |s| && CiPrefix(name, s[i..])
  }

  /** A lone `%` matches everything. */
  lemma {:induction false} LikeAnything(s: string)
    ensures Like("%", s)
    decreases |s|
  {
    if s != [] {
      LikeAnything(s[1..]);
    }
  }

  /** A pattern that starts with a literal matches a string that starts with
    * it, ignoring ASCII case, followed by a match of the rest. */
  lemma {:induction false} LikeLiteral(name: string, q: string, s: string)
    requires NoWildcard(name)
    ensures Like(name + q, s) <==> CiPrefix(name, s) && Like(q, s[|name|..])
    decreases |name|
  {
    if name == [] {
      assert name + q == q;
    } else {
      var p := name + q;
      assert p[0] == name[0] && p[1..] == name[1..] + q;
      if s != [] {
        LikeLiteral(name[1..], q, s[1..]);
        if |name| <= |s| {
          assert s[1..][|name| - 1..] == s[|name|..];
        }
        if CiPrefix(name[1..], s[1..]) && AsciiLower(name[0]) == AsciiLower(s[0]) {
          forall k | 0 <= k < |name|
            ensures AsciiLower(name[k]) == AsciiLower(s[k])
          {
            if k > 0 {
              assert name[k] == name[1..][k - 1] && s[k] == s[1..][k - 1];
            }
          }
        }
        if CiPrefix(name, s) {
          forall k | 0 <= k < |name| - 1
            ensures AsciiLower(name[1..][k]) == AsciiLower(s[1..][k])
          {
            assert name[1..][k] == name[k + 1] && s[1..][k] == s[k + 1];
          }
        }
      }
    }
  }

  /** A leading `%` lets the rest of the pattern match any suffix. */
  lemma {:induction false} LikeLeadingPercent(q: string, s: string)
    ensures Like("%" + q, s) <==> exists i :: 0 <= i <= |s| && Like(q, s[i..])
    decreases |s|
  {
    var p := "%" + q;
    assert p[0] == '%' && p[1..] == q;
    assert s[0..] == s;
    if s != [] {
      LikeLeadingPercent(q, s[1..]);
      if Like(p, s[1..]) {
        var i :| 0 <= i <= |s[1..]| && Like(q, s[1..][i..]);
        assert s[1..][i..] == s[i + 1..];
      }
      if i :| 0 <= i <= |s| && Like(q, s[i..]) {
        if i > 0 {
          assert s[1..][i - 1..] == s[i..];
        }
      }
    }
  }

  /** For a search term without wildcards, LIKE '%name%' is a case-insensitive
    * (ASCII only) substring test. */
  lemma LikeContains(name: string, s: string)
    requires NoWildcard(name)
    ensures Like(LikeArg(name), s) <==> CiContains(s, name)
  {
    assert LikeArg(name) == "%" + (name + "%");
    LikeLeadingPercent(name + "%", s);
    forall i | 0 <= i <= |s|
      ensures Like(name + "%", s[i..]) <==> CiPrefix(name, s[i..])
    {
      LikeLiteral(name, "%", s[i..]);
      if CiPrefix(name, s[i..]) {
        LikeAnything(s[i..][|name|..]);
      }
    }
  }

  /** `_` in the search term is a wildcard: "a_c" finds "ABC". */
  lemma UnderscoreIsWildcard()
    ensures Like(LikeArg("a_c"), "ABC")
    ensures !CiContains("ABC", "a_c")
  {
    var p := LikeArg("a_c");
    assert p == "%" + "a_c%";
    assert Like("%", []);
    assert Like("c%", "C");
    assert Like("_c%", "BC");
    assert Like("a_c%", "ABC");
    LikeLeadingPercent("a_c%", "ABC");
    assert "ABC"[0..] == "ABC";
    forall i | 0 <= i <= 3
      ensures !CiPrefix("a_c", "ABC"[i..])
    {
      if i == 0 {
        assert AsciiLower("a_c"[1]) != AsciiLower("ABC"[1]);
      }
    }
  }

  // ------------------------------------------------------------------ join

  /** One output row: (current_path, kind, name, start_line, end_line). */
  datatype Hit = Hit(path: string, kind: string, name: string, startLine: int, endLine: int)

  function HitOf(s: SymbolRow, f: FileRow): Hit {
    Hit(f.path, s.kind, s.name, s.startLine, s.endLine)
  }

  /** The WHERE clause of each query. */
  datatype Where = NameLike(pattern: string) | KindIs(kind: string)

  predicate Holds(w: Where, s: SymbolRow) {
    match w
    case NameLike(p) => Like(p, s.name)
    case KindIs(k) => s.kind == k
  }

  /** The rows the join yields for one symbol. */
  function HitsOf(s: SymbolRow, files: seq<FileRow>): (r: seq<Hit>)
    ensures forall h :: h in r <==>
      exists j :: 0 <= j < |files| && files[j].fileId == s.fileId && h == HitOf(s, files[j])
  {
    if files == [] then []
    else
      var rest := HitsOf(s, files[1..]);
      assert forall j :: 1 <= j < |files| ==> files[j] == files[1..][j - 1];
      (if files[0].fileId == s.fileId then [HitOf(s, files[0])] else []) + rest
  }

  /** FROM symbols s JOIN files f ON s.file_id = f.file_id WHERE w. */
  function JoinWhere(symbols: seq<SymbolRow>, files: seq<FileRow>, w: Where): (r: seq<Hit>)
  {
    if symbols == [] then []
    else (if Holds(w, symbols[0]) then HitsOf(symbols[0], files) else []) + JoinWhere(symbols[1..], files, w)
  }

  /** A row comes out of the join exactly when a symbol satisfying the WHERE
    * clause has a files row with its file_id. */
  lemma {:induction false} JoinWhereMembers(symbols: seq<SymbolRow>, files: seq<FileRow>, w: Where, h: Hit)
    ensures h in JoinWhere(symbols, files, w) <==>
      exists i, j :: 0 <= i < |symbols| && 0 <= j < |files| && Holds(w, symbols[i])
        && files[j].fileId == symbols[i].fileId && h == HitOf(symbols[i], files[j])
    decreases |symbols|
  {
    if symbols != [] {
      JoinWhereMembers(symbols[1..], files, w, h);
      if h in JoinWhere(symbols[1..], files, w) {
        var i, j :| 0 <= i < |symbols[1..]| && 0 <= j < |files| && Holds(w, symbols[1..][i])
          && files[j].fileId == symbols[1..][i].fileId && h == HitOf(symbols[1..][i], files[j]);
        assert symbols[1..][i] == symbols[i + 1];
      }
      if i, j :|
          0 <= i < |symbols| && 0 <= j < |files| && Holds(w, symbols[i])
          && files[j].fileId == symbols[i].fileId && h == HitOf(symbols[i], files[j]) {
        if i > 0 {
          assert symbols[1..][i - 1] == symbols[i];
        }
      }
    }
  }

  // ------------------------------------------------------------------ search_symbols_by_name

  /** ORDER BY f.current_path. */
  predicate PathOrder(a: Hit, b: Hit) {
    StrLe(a.path, b.path)
  }

  lemma PathOrderPreorder()
    ensures Total(PathOrder) && Transitive(PathOrder)
  {
    forall a: Hit, b: Hit
      ensures PathOrder(a, b) || PathOrder(b, a)
    {
      StrLeTotal(a.path, b.path);
    }
    forall a: Hit, b: Hit, c: Hit | PathOrder(a, b) && PathOrder(b, c)
      ensures PathOrder(a, c)
    {
      StrLeTransitive(a.path, b.path, c.path);
    }
  }

  /** search_symbols_by_name: the matching join rows, ordered by path. */
  function SearchSymbolsByName(symbols: seq<SymbolRow>, files: seq<FileRow>, name: string): (r: seq<Hit>)
    ensures multiset(r) == multiset(JoinWhere(symbols, files, NameLike(LikeArg(name))))
    ensures Sorted(r, PathOrder)
  {
    var hits := JoinWhere(symbols, files, NameLike(LikeArg(name)));
    PathOrderPreorder();
    SortBySorted(hits, PathOrder);
    SortBy(hits, PathOrder)
  }

  /** A row is returned exactly when a symbol whose name is LIKE '%name%'
    * has a files row; symbols without one are left out. */
  lemma SearchMembers(symbols: seq<SymbolRow>, files: seq<FileRow>, name: string, h: Hit)
    ensures h in SearchSymbolsByName(symbols, files, name) <==>
      exists i, j :: 0 <= i < |symbols| && 0 <= j < |files| && Like(LikeArg(name), symbols[i].name)
        && files[j].fileId == symbols[i].fileId && h == HitOf(symbols[i], files[j])
  {
    var r := SearchSymbolsByName(symbols, files, name);
    var hits := JoinWhere(symbols, files, NameLike(LikeArg(name)));
    assert h in r <==> h in multiset(r);
    assert h in hits <==> h in multiset(hits);
    JoinWhereMembers(symbols, files, NameLike(LikeArg(name)), h);
  }

  /** Rows for the same path keep the order of the join. */
  lemma SearchStable(symbols: seq<SymbolRow>, files: seq<FileRow>, name: string, h: Hit)
    ensures ClassOf(SearchSymbolsByName(symbols, files, name), PathOrder, h)
         == ClassOf(JoinWhere(symbols, files, NameLike(LikeArg(name))), PathOrder, h)
  {
    PathOrderPreorder();
    SortByStable(JoinWhere(symbols, files, NameLike(LikeArg(name))), PathOrder, h);
  }

  // ------------------------------------------------------------------ list_files_with_most_functions

  /** One output row: (current_path, func_count). */
  datatype FileCount = FileCount(path: string, count: nat)

  /** The path of every joined symbol of kind 'function'. */
  function FunctionPaths(symbols: seq<SymbolRow>, files: seq<FileRow>): (r: seq<string>)
    ensures forall p :: p in r <==>
      exists h :: h in JoinWhere(symbols, files, KindIs("function")) && h.path == p
  {
    var hits := JoinWhere(symbols, files, KindIs("function"));
    var r := seq(|hits|, k requires 0 <= k < |hits| => hits[k].path);
    forall h | h in hits
      ensures h.path in r
    {
      var k :| 0 <= k < |hits| && hits[k] == h;
      assert r[k] == h.path;
    }
    r
  }

  /** COUNT(*) of the group for path `p`. */
  function FunctionCount(symbols: seq<SymbolRow>, files: seq<FileRow>, p: string): nat {
    multiset(FunctionPaths(symbols, files))[p]
  }

  /** The distinct values of `ps`, in order of first appearance. */
  function Dedup(ps: seq<string>): (r: seq<string>)
    ensures NoDup(r)
    ensures forall p :: p in r <==> p in ps
  {
    if ps == [] then []
    else
      var d := Dedup(ps[..|ps| - 1]);
      assert ps == ps[..|ps| - 1] + [ps[|ps| - 1]];
      if ps[|ps| - 1] in d then d else d + [ps[|ps| - 1]]
  }

  /** GROUP BY f.current_path with COUNT(*). */
  function Groups(ps: seq<string>): (r: seq<FileCount>)
    ensures NoDup(r)
    ensures forall g :: g in r <==> g.path in ps && g.count == multiset(ps)[g.path]
  {
    var d := Dedup(ps);
    var r := seq(|d|, k requires 0 <= k < |d| => FileCount(d[k], multiset(ps)[d[k]]));
    assert forall g: FileCount :: g.path in ps && g.count == multiset(ps)[g.path] ==> g in r by {
      forall g: FileCount | g.path in ps && g.count == multiset(ps)[g.path]
        ensures g in r
      {
        var k :| 0 <= k < |d| && d[k] == g.path;
        assert r[k] == g;
      }
    }
    r
  }

  /** ORDER BY func_count DESC. */
  predicate CountOrder(a: FileCount, b: FileCount) {
    a.count >= b.count
  }

  lemma CountOrderPreorder()
    ensures Total(CountOrder) && Transitive(CountOrder)
  {
  }

  /** SQLite's LIMIT: a negative limit means no limit. */
  function Limit<T>(s: seq<T>, limit: int): (r: seq<T>)
    ensures limit >= 0 ==> |r| <= limit
    ensures StartsWith(s, r)
    ensures |r| == |s| || |r| == limit
  {
    if limit < 0 || |s| <= limit then s else s[..limit]
  }

  const DefaultLimit: int := 10

  /** The groups of function symbols ordered by count, before LIMIT. */
  function RankedFiles(symbols: seq<SymbolRow>, files: seq<FileRow>): (r: seq<FileCount>)
    ensures multiset(r) == multiset(Groups(FunctionPaths(symbols, files)))
    ensures Sorted(r, CountOrder)
  {
    CountOrderPreorder();
    SortBySorted(Groups(FunctionPaths(symbols, files)), CountOrder);
    SortBy(Groups(FunctionPaths(symbols, files)), CountOrder)
  }

  /** list_files_with_most_functions: the files with the most function
    * symbols, most first, at most `limit` of them. */
  function ListFilesWithMostFunctions(symbols: seq<SymbolRow>, files: seq<FileRow>, limit: int)
    : (r: seq<FileCount>)
    ensures limit >= 0 ==> |r| <= limit
    ensures forall k :: 0 <= k < |r| ==>
      r[k].count == FunctionCount(symbols, files, r[k].path) && r[k].count >= 1
    ensures forall i, j :: 0 <= i < j < |r| ==> r[i].count >= r[j].count
  {
    var ranked := RankedFiles(symbols, files);
    var r := Limit(ranked, limit);
    RankedCounts(symbols, files);
    assert forall k :: 0 <= k < |r| ==> r[k] == ranked[k];
    r
  }

  /** Every ranked group carries its path's count of function symbols, at least one. */
  lemma RankedCounts(symbols: seq<SymbolRow>, files: seq<FileRow>)
    ensures var ranked := RankedFiles(symbols, files);
      forall k :: 0 <= k < |ranked| ==>
        ranked[k].count == FunctionCount(symbols, files, ranked[k].path) && ranked[k].count >= 1
  {
    var ps := FunctionPaths(symbols, files);
    var ranked := RankedFiles(symbols, files);
    forall k | 0 <= k < |ranked|
      ensures ranked[k].count == multiset(ps)[ranked[k].path] && ranked[k].count >= 1
    {
      assert ranked[k] in multiset(ranked);
      assert ranked[k] in Groups(ps);
    }
  }

  /** No path is listed twice. */
  lemma ListFilesDistinct(symbols: seq<SymbolRow>, files: seq<FileRow>, limit: int)
    ensures var r := ListFilesWithMostFunctions(symbols, files, limit);
      forall i, j :: 0 <= i < j < |r| ==> r[i].path != r[j].path
  {
    var ranked := RankedFiles(symbols, files);
    var r := ListFilesWithMostFunctions(symbols, files, limit);
    PermutationNoDup(Groups(FunctionPaths(symbols, files)), ranked);
    assert forall k :: 0 <= k < |r| ==> r[k] == ranked[k];
  }

  /** The rows are the top of the ranking: a file with functions that is not
    * listed has no more functions than any listed file. */
  lemma ListFilesTop(symbols: seq<SymbolRow>, files: seq<FileRow>, limit: int, p: string)
    requires p in FunctionPaths(symbols, files)
    requires forall k :: 0 <= k < |ListFilesWithMostFunctions(symbols, files, limit)| ==>
      ListFilesWithMostFunctions(symbols, files, limit)[k].path != p
    ensures forall k :: 0 <= k < |ListFilesWithMostFunctions(symbols, files, limit)| ==>
      ListFilesWithMostFunctions(symbols, files, limit)[k].count >= FunctionCount(symbols, files, p)
  {
    var ranked := RankedFiles(symbols, files);
    var r := ListFilesWithMostFunctions(symbols, files, limit);
    var g := FileCount(p, FunctionCount(symbols, files, p));
    assert g in ranked by {
      assert g in Groups(FunctionPaths(symbols, files));
      assert g in multiset(ranked);
    }
    var m :| 0 <= m < |ranked| && ranked[m] == g;
    assert forall k :: 0 <= k < |r| ==> ranked[k] == r[k] && ranked[k].path != p;
    assert ranked[m].path == p;
    assert |r| <= m;
    forall k | 0 <= k < |r| ensures r[k].count >= g.count {
      assert r[k] == ranked[k];
      assert CountOrder(ranked[k], ranked[m]);
    }
  }

  /** Without a cutting limit every file with a function is listed. */
  lemma ListFilesComplete(symbols: seq<SymbolRow>, files: seq<FileRow>, limit: int, p: string)
    requires limit < 0 || limit >= |FunctionPaths(symbols, files)|
    requires p in FunctionPaths(symbols, files)
    ensures exists k ::
      0 <= k < |ListFilesWithMostFunctions(symbols, files, limit)| &&
      ListFilesWithMostFunctions(symbols, files, limit)[k].path == p
  {
    var ranked := RankedFiles(symbols, files);
    var groups := Groups(FunctionPaths(symbols, files));
    var r := ListFilesWithMostFunctions(symbols, files, limit);
    assert |groups| <= |FunctionPaths(symbols, files)| by {
      DedupShorter(FunctionPaths(symbols, files));
    }
    assert r == ranked;
    var g := FileCount(p, FunctionCount(symbols, files, p));
    assert g in groups;
    assert g in multiset(ranked);
    var m :| 0 <= m < |ranked| && ranked[m] == g;
    assert r[m].path == p;
  }

  lemma {:induction false} DedupShorter(ps: seq<string>)
    ensures |Dedup(ps)| <= |ps|
    decreases |ps|
  {
    if ps != [] {
      DedupShorter(ps[..|ps| - 1]);
    }
  }
}
