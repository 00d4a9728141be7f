/** The SQLite symbol indexer: it finds the repository root, then records
    the head commit, every source file of the head tree and every symbol the
    Python parser reports for it, in three tables.

    The tables are sequences of rows in insertion order. The schema file is
    not part of this model: commit_sha and current_path are taken to be
    UNIQUE (INSERT OR IGNORE relies on it) and file_id an INTEGER PRIMARY KEY
    of a table nothing is deleted from, so a new file gets the row count plus
    one. The file system, the git tree walk and the parser are parameters. */
module SymbolIndex {
  import opened Common

  // ------------------------------------------------------------------ find_git_root

  /** An absolute path as its components: "/" is [], "/a/b" is ["a", "b"]. */
  type Path = seq<string>

  const NoGitRoot: string := "No .git directory found in parent paths"

  /** find_git_root: climb from the start directory towards "/", returning
      the first directory holding ".git". "/" itself is never probed. */
  method FindGitRoot(start: Path, hasGit: Path -> bool) returns (r: Result<Path, Exception>)
    ensures r.Ok? ==> r.value != [] && StartsWith(start, r.value) && hasGit(r.value)
                      && forall n :: |r.value| < n <= |start| ==> !hasGit(start[..n])
    ensures r.Err? <==> forall n :: 1 <= n <= |start| ==> !hasGit(start[..n])
    ensures r.Err? ==> r.error == Exception(NoGitRoot, "RuntimeError")
  {
    var path := start;
    while path != []
      invariant StartsWith(start, path)
      invariant forall n :: |path| < n <= |start| ==> !hasGit(start[..n])
      decreases |path|
    {
      assert start[..|path|] == path;
      if hasGit(path) {
        return Ok(path);
      }
      path := path[..|path| - 1];
    }
    return Err(Exception(NoGitRoot, "RuntimeError"));
  }

  // ------------------------------------------------------------------ tables

  datatype CommitRow = CommitRow(sha: string, authorName: string, authorEmail: string, message: string,
                                 committedAt: string)
  datatype FileRow = FileRow(fileId: nat, path: string)
  datatype SymbolRow = SymbolRow(fileId: nat, commitSha: string, kind: string, name: string,
                                 startLine: int, endLine: int)

  /** The commit object insert_commit reads. */
  datatype GitCommit = GitCommit(hexsha: string, authorName: string, authorEmail: string, message: string,
                                 committedDate: int)

  predicate HasCommit(commits: seq<CommitRow>, sha: string) {
    exists k :: 0 <= k < |commits| && commits[k].sha == sha
  }

  /** SELECT file_id FROM files WHERE current_path = path. */
  function FileIdOf(files: seq<FileRow>, path: string): (r: Option<nat>)
    ensures r.None? <==> forall k :: 0 <= k < |files| ==> files[k].path != path
    ensures r.Some? ==> exists k :: 0 <= k < |files| && files[k] == FileRow(r.value, path)
  {
    if files == [] then None
    else if files[0].path == path then Some(files[0].fileId)
    else
      var r := FileIdOf(files[1..], path);
      assert forall k :: 1 <= k < |files| ==> files[k] == files[1..][k - 1];
      r
  }

  /** Row ids count from 1 in insertion order, and no path repeats. */
  ghost predicate FilesValid(files: seq<FileRow>) {
    (forall k :: 0 <= k < |files| ==> files[k].fileId == k + 1)
    && (forall i, j :: 0 <= i < j < |files| ==> files[i].path != files[j].path)
  }

  /** Once a path has an id, adding rows keeps it. */
  ghost predicate IdsKept(before: seq<FileRow>, after: seq<FileRow>) {
    forall p :: FileIdOf(before, p).Some? ==> FileIdOf(after, p) == FileIdOf(before, p)
  }

  /** Appending a new path keeps every earlier id, and gives the new path its row number. */
  lemma FileIdOfAppend(files: seq<FileRow>, path: string)
    requires FileIdOf(files, path).None?
    ensures IdsKept(files, files + [FileRow(|files| + 1, path)])
    ensures FileIdOf(files + [FileRow(|files| + 1, path)], path) == Some(|files| + 1)
  {
    var row := FileRow(|files| + 1, path);
    forall p | FileIdOf(files, p).Some?
      ensures FileIdOf(files + [row], p) == FileIdOf(files, p)
    {
      FileIdOfKept(files, row, p);
    }
    FileIdOfLast(files, row);
  }

  /** Appending a path that has no row yet, under the next id, keeps the table valid. */
  lemma FilesValidAppend(files: seq<FileRow>, path: string)
    requires FilesValid(files) && FileIdOf(files, path).None?
    ensures FilesValid(files + [FileRow(|files| + 1, path)])
  {
    var f := files + [FileRow(|files| + 1, path)];
    forall k | 0 <= k < |f| ensures f[k].fileId == k + 1 {
      if k < |files| {
        assert f[k] == files[k];
      }
    }
    forall i, j | 0 <= i < j < |f| ensures f[i].path != f[j].path {
      assert f[i] == files[i];
      if j < |files| {
        assert f[j] == files[j];
      }
    }
  }

  /** After an append, a path with an id either had one or is the new row's. */
  lemma FileIdOfNew(files: seq<FileRow>, row: FileRow)
    ensures forall p :: FileIdOf(files + [row], p).Some? ==> FileIdOf(files, p).Some? || p == row.path
  {
    forall p | FileIdOf(files + [row], p).Some? && p != row.path
      ensures FileIdOf(files, p).Some?
    {
      var k :| 0 <= k < |files + [row]| && (files + [row])[k].path == p;
      assert k < |files| && files[k].path == p;
    }
  }

  /** A path found before a row is appended is found with the same id after. */
  lemma {:induction false} FileIdOfKept(files: seq<FileRow>, row: FileRow, p: string)
    requires FileIdOf(files, p).Some?
    ensures FileIdOf(files + [row], p) == FileIdOf(files, p)
  {
    if files[0].path != p {
      assert (files + [row])[1..] == files[1..] + [row];
      FileIdOfKept(files[1..], row, p);
    }
  }

  /** A path first met in the appended row gets that row's id. */
  lemma {:induction false} FileIdOfLast(files: seq<FileRow>, row: FileRow)
    requires FileIdOf(files, row.path).None?
    ensures FileIdOf(files + [row], row.path) == Some(row.fileId)
  {
    if files != [] {
      assert (files + [row])[1..] == files[1..] + [row];
      FileIdOfLast(files[1..], row);
    } else {
      assert [row][1..] == [];
    }
  }

  /** The parser's report for one symbol: kind, name, first and last line. */
  datatype ParsedSymbol = ParsedSymbol(kind: string, name: string, startLine: int, endLine: int)

  /** An entry of the head tree walk. */
  datatype Blob = Blob(kind: string, path: string)

  const SourceSuffixes: seq<string> := [".py", ".js", ".ts", ".java", ".go", ".cpp", ".c"]

  /** index_head's filter: a blob outside ".git…" with a listed extension. */
  predicate Indexable(b: Blob) {
    b.kind == "blob" && !StartsWith(b.path, ".git")
    && exists k :: 0 <= k < |SourceSuffixes| && EndsWith(b.path, SourceSuffixes[k])
  }

  /** The symbol rows index_head adds for the blobs, each carrying the head
      commit sha and the id its path has in `files`. */
  function SymbolRowsFor(blobs: seq<Blob>, files: seq<FileRow>, sha: string, repoRoot: string,
                         parse: string -> seq<ParsedSymbol>): seq<SymbolRow>
  {
    if blobs == [] then []
    else
      var init := SymbolRowsFor(blobs[..|blobs| - 1], files, sha, repoRoot, parse);
      var b := blobs[|blobs| - 1];
      if !Indexable(b) || FileIdOf(files, b.path).None? then init
      else init + RowsOfFile(FileIdOf(files, b.path).value, sha, parse(JoinPath(repoRoot, b.path)))
  }

  function RowsOfFile(fileId: nat, sha: string, syms: seq<ParsedSymbol>): (r: seq<SymbolRow>)
    ensures |r| == |syms|
    ensures forall k :: 0 <= k < |r| ==> r[k].fileId == fileId && r[k].commitSha == sha
                                         && r[k].kind == syms[k].kind && r[k].name == syms[k].name
                                         && r[k].startLine == syms[k].startLine && r[k].endLine == syms[k].endLine
  {
    seq(|syms|, k requires 0 <= k < |syms| => SymbolRow(fileId, sha, syms[k].kind, syms[k].name, syms[k].startLine, syms[k].endLine))
  }

  /** The rows of one more blob. */
  lemma SymbolRowsStep(blobs: seq<Blob>, i: nat, files: seq<FileRow>, sha: string, repoRoot: string,
                       parse: string -> seq<ParsedSymbol>)
    requires i < |blobs|
    ensures SymbolRowsFor(blobs[..i + 1], files, sha, repoRoot, parse)
            == SymbolRowsFor(blobs[..i], files, sha, repoRoot, parse)
               + if Indexable(blobs[i]) && FileIdOf(files, blobs[i].path).Some?
                 then RowsOfFile(FileIdOf(files, blobs[i].path).value, sha, parse(JoinPath(repoRoot, blobs[i].path)))
                 else []
  {
    assert blobs[..i + 1][..i] == blobs[..i];
  }

  /** A blob index_head skips adds no rows. */
  lemma SymbolRowsSkip(blobs: seq<Blob>, i: nat, files: seq<FileRow>, sha: string, repoRoot: string,
                       parse: string -> seq<ParsedSymbol>)
    requires i < |blobs| && !Indexable(blobs[i])
    ensures SymbolRowsFor(blobs[..i + 1], files, sha, repoRoot, parse) == SymbolRowsFor(blobs[..i], files, sha, repoRoot, parse)
  {
    assert blobs[..i + 1][..i] == blobs[..i];
  }

  /** The rows depend on `files` only through the ids of the blobs' paths. */
  lemma {:induction false} SymbolRowsStable(blobs: seq<Blob>, files: seq<FileRow>, files': seq<FileRow>, sha: string,
                                            repoRoot: string, parse: string -> seq<ParsedSymbol>)
    requires IdsKept(files, files')
    requires Covers(files, blobs, |blobs|)
    ensures SymbolRowsFor(blobs, files', sha, repoRoot, parse) == SymbolRowsFor(blobs, files, sha, repoRoot, parse)
  {
    if blobs != [] {
      CoversPrefix(files, blobs, |blobs| - 1);
      SymbolRowsStable(blobs[..|blobs| - 1], files, files', sha, repoRoot, parse);
    }
  }

  /** Registering blob i's path keeps the rows of the earlier blobs and adds
      the rows of its symbols under its id. */
  lemma RowsAfterInsert(blobs: seq<Blob>, i: nat, before: seq<FileRow>, files: seq<FileRow>, sha: string,
                        repoRoot: string, parse: string -> seq<ParsedSymbol>, id: nat)
    requires i < |blobs| && Indexable(blobs[i]) && Covers(before, blobs, i) && IdsKept(before, files)
    requires FileIdOf(files, blobs[i].path) == Some(id)
    ensures SymbolRowsFor(blobs[..i + 1], files, sha, repoRoot, parse)
            == SymbolRowsFor(blobs[..i], before, sha, repoRoot, parse)
               + RowsOfFile(id, sha, parse(JoinPath(repoRoot, blobs[i].path)))
  {
    assert Covers(before, blobs[..i], i) by {
      assert forall k :: 0 <= k < i ==> blobs[..i][k] == blobs[k];
    }
    SymbolRowsStable(blobs[..i], before, files, sha, repoRoot, parse);
    SymbolRowsStep(blobs, i, files, sha, repoRoot, parse);
  }

  /** Every indexable blob among the first n has a file id. */
  ghost predicate Covers(files: seq<FileRow>, blobs: seq<Blob>, n: nat) {
    forall k :: 0 <= k < n && k < |blobs| && Indexable(blobs[k]) ==> FileIdOf(files, blobs[k].path).Some?
  }

  lemma CoversPrefix(files: seq<FileRow>, blobs: seq<Blob>, n: nat)
    requires n <= |blobs| && Covers(files, blobs, |blobs|)
    ensures Covers(files, blobs[..n], n)
  {
    assert forall k :: 0 <= k < n ==> blobs[..n][k] == blobs[k];
  }

  /** Covering one more blob: earlier ids are kept and the new blob, when
      indexable, has one. */
  lemma CoversStep(before: seq<FileRow>, after: seq<FileRow>, blobs: seq<Blob>, i: nat)
    requires i < |blobs| && Covers(before, blobs, i) && IdsKept(before, after)
    requires Indexable(blobs[i]) ==> FileIdOf(after, blobs[i].path).Some?
    ensures Covers(after, blobs, i + 1)
  {
    forall k | 0 <= k < i + 1 && k < |blobs| && Indexable(blobs[k])
      ensures FileIdOf(after, blobs[k].path).Some?
    {
      if k < i {
        assert FileIdOf(before, blobs[k].path).Some?;
      }
    }
  }

  /** Every path with an id had one in `start`, or is the path of one of the
      first n indexable blobs. */
  ghost predicate OnlyFrom(start: seq<FileRow>, files: seq<FileRow>, blobs: seq<Blob>, n: nat) {
    forall p :: FileIdOf(files, p).Some? ==>
      FileIdOf(start, p).Some? || exists k :: 0 <= k < n && k < |blobs| && Indexable(blobs[k]) && blobs[k].path == p
  }

  lemma OnlyFromStep(start: seq<FileRow>, before: seq<FileRow>, after: seq<FileRow>, blobs: seq<Blob>, i: nat)
    requires i < |blobs| && OnlyFrom(start, before, blobs, i)
    requires forall p :: FileIdOf(after, p).Some? ==>
               FileIdOf(before, p).Some? || (Indexable(blobs[i]) && blobs[i].path == p)
    ensures OnlyFrom(start, after, blobs, i + 1)
  {
    forall p | FileIdOf(after, p).Some? && FileIdOf(start, p).None?
      ensures exists k :: 0 <= k < i + 1 && k < |blobs| && Indexable(blobs[k]) && blobs[k].path == p
    {
      if FileIdOf(before, p).None? {
        assert Indexable(blobs[i]) && blobs[i].path == p;
      }
    }
  }

  lemma IdsKeptTrans(a: seq<FileRow>, b: seq<FileRow>, c: seq<FileRow>)
    requires IdsKept(a, b) && IdsKept(b, c)
    ensures IdsKept(a, c)
  {
  }

  /** What handling blob i does to the file rows: earlier ids are kept, the
      blob's path has an id when the blob is indexable, and no other path
      gains one. */
  ghost predicate BlobRegistered(before: seq<FileRow>, after: seq<FileRow>, blobs: seq<Blob>, i: nat)
    requires i < |blobs|
  {
    IdsKept(before, after)
    && (Indexable(blobs[i]) ==> FileIdOf(after, blobs[i].path).Some?)
    && forall p :: FileIdOf(after, p).Some? ==> FileIdOf(before, p).Some? || (Indexable(blobs[i]) && blobs[i].path == p)
  }

  /** The head commit's row is there, and was added only if it was missing. */
  ghost predicate HeadRecorded(start: seq<CommitRow>, commits: seq<CommitRow>, head: GitCommit, isoformat: int -> string) {
    HasCommit(commits, head.hexsha)
    && (HasCommit(start, head.hexsha) ==> commits == start)
    && (!HasCommit(start, head.hexsha) ==>
          commits == start + [CommitRow(head.hexsha, head.authorName, head.authorEmail, Strip(head.message),
                                        isoformat(head.committedDate))])
  }

  /** The three tables of lineage.db. */
  class SymbolDb {
    var commits: seq<CommitRow>
    var files: seq<FileRow>
    var symbols: seq<SymbolRow>

    ghost predicate Valid()
      reads this
    {
      (forall i, j :: 0 <= i < j < |commits| ==> commits[i].sha != commits[j].sha)
      && FilesValid(files)
    }

    constructor ()
      ensures Valid() && commits == [] && files == [] && symbols == []
    {
      commits := [];
      files := [];
      symbols := [];
    }

    /** insert_commit: INSERT OR IGNORE by sha, the message stripped and the
        commit time as ISO text. A sha already present keeps its first row. */
    method InsertCommit(c: GitCommit, isoformat: int -> string)
      requires Valid()
      modifies this
      ensures Valid()
      ensures HasCommit(old(commits), c.hexsha) ==> commits == old(commits)
      ensures !HasCommit(old(commits), c.hexsha) ==>
                commits == old(commits) + [CommitRow(c.hexsha, c.authorName, c.authorEmail, Strip(c.message),
                                                     isoformat(c.committedDate))]
      ensures files == old(files) && symbols == old(symbols)
    {
      var k := 0;
      while k < |commits|
        invariant 0 <= k <= |commits|
        invariant forall j :: 0 <= j < k ==> commits[j].sha != c.hexsha
      {
        if commits[k].sha == c.hexsha {
          return;
        }
        k := k + 1;
      }
      commits := commits + [CommitRow(c.hexsha, c.authorName, c.authorEmail, Strip(c.message), isoformat(c.committedDate))];
    }

    /** insert_file: INSERT OR IGNORE by path, then the id of the path's row.
        A known path keeps its id; a new one gets the next id. */
    method InsertFile(path: string) returns (id: nat)
      requires Valid()
      modifies this
      ensures Valid()
      ensures FileIdOf(files, path) == Some(id)
      ensures FileIdOf(old(files), path).Some? ==> files == old(files) && id == FileIdOf(old(files), path).value
      ensures FileIdOf(old(files), path).None? ==> files == old(files) + [FileRow(|old(files)| + 1, path)]
      ensures IdsKept(old(files), files)
      ensures forall p :: FileIdOf(files, p).Some? ==> FileIdOf(old(files), p).Some? || p == path
      ensures commits == old(commits) && symbols == old(symbols)
    {
      var existing := FileIdOf(files, path);
      if existing.Some? {
        return existing.value;
      }
      FileIdOfAppend(files, path);
      FileIdOfNew(files, FileRow(|files| + 1, path));
      FilesValidAppend(files, path);
      files := files + [FileRow(|files| + 1, path)];
      id := |files|;
    }

    /** insert_symbol: an unconditional append. */
    method InsertSymbol(fileId: nat, commitSha: string, kind: string, name: string, startLine: int, endLine: int)
      modifies this
      ensures symbols == old(symbols) + [SymbolRow(fileId, commitSha, kind, name, startLine, endLine)]
      ensures commits == old(commits) && files == old(files)
    {
      symbols := symbols + [SymbolRow(fileId, commitSha, kind, name, startLine, endLine)];
    }

    /** The inner loop of index_head: one row per parsed symbol, in order. */
    method InsertSymbols(fileId: nat, sha: string, syms: seq<ParsedSymbol>)
      modifies this
      ensures symbols == old(symbols) + RowsOfFile(fileId, sha, syms)
      ensures commits == old(commits) && files == old(files)
    {
      var i := 0;
      while i < |syms|
        invariant 0 <= i <= |syms|
        invariant symbols == old(symbols) + RowsOfFile(fileId, sha, syms[..i])
        invariant commits == old(commits) && files == old(files)
      {
        InsertSymbol(fileId, sha, syms[i].kind, syms[i].name, syms[i].startLine, syms[i].endLine);
        assert RowsOfFile(fileId, sha, syms[..i + 1]) == RowsOfFile(fileId, sha, syms[..i]) + RowsOfFile(fileId, sha, [syms[i]]);
        i := i + 1;
      }
      assert syms[..i] == syms;
    }

    /** index_head: the head commit first, then for every indexable blob its
        file row and the rows of the symbols parsed from it. */
    method IndexHead(head: GitCommit, blobs: seq<Blob>, repoRoot: string, parse: string -> seq<ParsedSymbol>,
                     isoformat: int -> string)
      requires Valid()
      modifies this
      ensures Valid()
      ensures HasCommit(commits, head.hexsha)
      ensures HasCommit(old(commits), head.hexsha) ==> commits == old(commits)
      ensures !HasCommit(old(commits), head.hexsha) ==>
                commits == old(commits) + [CommitRow(head.hexsha, head.authorName, head.authorEmail, Strip(head.message),
                                                     isoformat(head.committedDate))]
      ensures forall k :: 0 <= k < |blobs| && Indexable(blobs[k]) ==> FileIdOf(files, blobs[k].path).Some?
      ensures forall p :: FileIdOf(files, p).Some? ==>
                FileIdOf(old(files), p).Some? || exists k :: 0 <= k < |blobs| && Indexable(blobs[k]) && blobs[k].path == p
      ensures IdsKept(old(files), files)
      ensures symbols == old(symbols) + SymbolRowsFor(blobs, files, head.hexsha, repoRoot, parse)
    {
      ghost var commits0, files0, symbols0 := commits, files, symbols;
      InsertCommit(head, isoformat);
      assert HeadRecorded(commits0, commits, head, isoformat) by {
        if !HasCommit(commits0, head.hexsha) {
          assert commits[|commits| - 1].sha == head.hexsha;
        }
      }
      assert blobs[..0] == [];
      for i := 0 to |blobs|
        invariant Valid()
        invariant HeadRecorded(commits0, commits, head, isoformat)
        invariant Covers(files, blobs, i) && OnlyFrom(files0, files, blobs, i) && IdsKept(files0, files)
        invariant symbols == symbols0 + SymbolRowsFor(blobs[..i], files, head.hexsha, repoRoot, parse)
      {
        if Indexable(blobs[i]) {
          ghost var before := files;
          IndexBlob(blobs, i, head.hexsha, repoRoot, parse, symbols0);
          CoversStep(before, files, blobs, i);
          OnlyFromStep(files0, before, files, blobs, i);
          IdsKeptTrans(files0, before, files);
        } else {
          SymbolRowsSkip(blobs, i, files, head.hexsha, repoRoot, parse);
          CoversStep(files, files, blobs, i);
          OnlyFromStep(files0, files, files, blobs, i);
        }
      }
      assert blobs[..|blobs|] == blobs;
    }

    /** The body of index_head's loop for an indexable blob i: its file row,
        then the rows of its symbols. */
    method IndexBlob(blobs: seq<Blob>, i: nat, sha: string, repoRoot: string, parse: string -> seq<ParsedSymbol>,
                     ghost base: seq<SymbolRow>)
      requires i < |blobs| && Indexable(blobs[i]) && Valid()
      requires symbols == base + SymbolRowsFor(blobs[..i], files, sha, repoRoot, parse)
      requires Covers(files, blobs, i)
      modifies this
      ensures Valid() && commits == old(commits)
      ensures BlobRegistered(old(files), files, blobs, i)
      ensures symbols == base + SymbolRowsFor(blobs[..i + 1], files, sha, repoRoot, parse)
    {
      var path := blobs[i].path;
      ghost var before := files;
      var id := InsertFile(path);
      RowsAfterInsert(blobs, i, before, files, sha, repoRoot, parse, id);
      InsertSymbols(id, sha, parse(JoinPath(repoRoot, path)));
      AppendAssoc(base, SymbolRowsFor(blobs[..i], before, sha, repoRoot, parse),
                  RowsOfFile(id, sha, parse(JoinPath(repoRoot, path))));
    }
  }
}
