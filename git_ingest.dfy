/** The OpenSearch ingestion script: it reads a clone's history from the
    output of `git log --pretty=format:%H|%an|%ae|%at|%s`, attaches each
    commit's changed files (from `git show --name-only`) and an embedding,
    and stores one document per commit hash unless one is there already. It
    also lists merged pull requests and turns each into a text block, an
    embedding and one document per (owner, repository, number).

    The git subprocesses are replaced by their standard output; the
    embedding service, datetime.fromtimestamp(...).isoformat() and the GitHub
    replies are parameters; the two OpenSearch indices are the maps of class
    `Indices`. */
module GitIngest {
  import opened Common

  const FieldSep: char := '|'
  const NoFiles: string := "No files"
  const FileSep: string := ", "

  // ------------------------------------------------------------------ fetch_commits

  /** One commit as the git-log parser produces it. */
  datatype LogEntry = LogEntry(hash: string, author: string, email: string, timestamp: int, message: string)

  /** What int(text) raises on text that is not an integer literal. */
  function IntValueError(text: string): Exception {
    Exception("invalid literal for int() with base 10: '" + text + "'", "ValueError")
  }

  /** One output line: Ok(None) for a line the parser skips (empty, or not
      five fields after at most four splits on '|'), Err where int() raises. */
  function ParseLogLine(line: string): (r: Result<Option<LogEntry>, Exception>)
    ensures r == Ok(None) <==> line == [] || |SplitN(line, FieldSep, 4)| != 5
    ensures r.Err? ==> r.error.typeName == "ValueError"
  {
    if line == [] then Ok(None)
    else
      var parts := SplitN(line, FieldSep, 4);
      if |parts| != 5 then Ok(None)
      else match ParseInt(parts[3])
        case None => Err(IntValueError(parts[3]))
        case Some(t) => Ok(Some(LogEntry(parts[0], parts[1], parts[2], t, parts[4])))
  }

  /** The entries of a list of lines, in order; the first line whose
      timestamp int() rejects ends the parse with its ValueError. */
  function ParseLogLines(lines: seq<string>): Result<seq<LogEntry>, Exception> {
    if lines == [] then Ok([])
    else match ParseLogLine(lines[0])
      case Err(e) => Err(e)
      case Ok(here) =>
        match ParseLogLines(lines[1..])
        case Err(e) => Err(e)
        case Ok(rest) => Ok((if here.Some? then [here.value] else []) + rest)
  }

  /** fetch_commits on the captured standard output. */
  function ParseGitLog(stdout: string): Result<seq<LogEntry>, Exception> {
    ParseLogLines(Split(Strip(stdout), '\n'))
  }

  /** `acc` put in front of the entries of a parse that succeeds. */
  function Prepend(acc: seq<LogEntry>, r: Result<seq<LogEntry>, Exception>): Result<seq<LogEntry>, Exception> {
    match r
    case Ok(v) => Ok(acc + v)
    case Err(e) => Err(e)
  }

  lemma PrependNil(r: Result<seq<LogEntry>, Exception>)
    ensures Prepend([], r) == r
  {
    if r.Ok? {
      assert [] + r.value == r.value;
    }
  }

  /** Moving the entries of one line into the accumulator. */
  lemma PrependStep(acc: seq<LogEntry>, here: seq<LogEntry>, rest: Result<seq<LogEntry>, Exception>)
    ensures Prepend(acc, Prepend(here, rest)) == Prepend(acc + here, rest)
  {
    if rest.Ok? {
      assert acc + (here + rest.value) == acc + here + rest.value;
    }
  }

  /** One step of the parse: the first line's entries, then the rest's. */
  lemma ParseLogLinesCons(lines: seq<string>)
    requires lines != []
    ensures ParseLogLines(lines) == match ParseLogLine(lines[0])
      case Err(e) => Err(e)
      case Ok(here) => Prepend(if here.Some? then [here.value] else [], ParseLogLines(lines[1..]))
  {
  }

  /** The parsing loop of fetch_commits. */
  method FetchCommits(stdout: string) returns (r: Result<seq<LogEntry>, Exception>)
    ensures r == ParseGitLog(stdout)
  {
    var lines := Split(Strip(stdout), '\n');
    var commits: seq<LogEntry> := [];
    var i := 0;
    assert lines[0..] == lines;
    PrependNil(ParseLogLines(lines));
    while i < |lines|
      invariant 0 <= i <= |lines|
      invariant ParseLogLines(lines) == Prepend(commits, ParseLogLines(lines[i..]))
    {
      assert lines[i..][0] == lines[i] && lines[i..][1..] == lines[i + 1..];
      ParseLogLinesCons(lines[i..]);
      ghost var rest := ParseLogLines(lines[i + 1..]);
      var line := lines[i];
      if line != [] {
        var parts := SplitN(line, FieldSep, 4);
        if |parts| == 5 {
          var t := ParseInt(parts[3]);
          if t.None? {
            assert ParseLogLines(lines[i..]) == Err(IntValueError(parts[3]));
            return Err(IntValueError(parts[3]));
          }
          var entry := LogEntry(parts[0], parts[1], parts[2], t.value, parts[4]);
          assert ParseLogLine(line) == Ok(Some(entry));
          PrependStep(commits, [entry], rest);
          commits := commits + [entry];
        } else {
          PrependStep(commits, [], rest);
          assert commits + [] == commits;
        }
      } else {
        PrependStep(commits, [], rest);
        assert commits + [] == commits;
      }
      i := i + 1;
    }
    assert lines[i..] == [];
    assert commits + [] == commits;
    return Ok(commits);
  }

  /** The entry a line contributes, for a line int() does not reject. */
  function LineEntry(line: string): Option<LogEntry> {
    match ParseLogLine(line)
    case Ok(o) => o
    case Err(_) => None
  }

  /** Without a rejected timestamp the parse keeps the accepted lines'
      entries, in order, and drops the others. */
  lemma {:induction false} ParseLogLinesFilters(lines: seq<string>)
    requires forall k :: 0 <= k < |lines| ==> ParseLogLine(lines[k]).Ok?
    ensures ParseLogLines(lines) == Ok(FilterMap(lines, LineEntry))
  {
    if lines != [] {
      var tail := lines[1..];
      assert forall k :: 0 <= k < |tail| ==> tail[k] == lines[k + 1];
      ParseLogLinesFilters(tail);
      ParseLogLinesCons(lines);
      assert lines == [lines[0]] + tail;
      FilterMapAppend([lines[0]], tail, LineEntry);
      var here := LineEntry(lines[0]);
      assert ParseLogLine(lines[0]) == Ok(here);
      var hs := if here.Some? then [here.value] else [];
      assert [lines[0]][..0] == [];
      assert FilterMap([lines[0]], LineEntry) == [] + hs == hs;
      assert ParseLogLines(lines) == Prepend(hs, ParseLogLines(tail)) == Ok(hs + FilterMap(tail, LineEntry));
    }
  }

  /** The first line whose timestamp is rejected decides the parse. */
  lemma {:induction false} ParseLogLinesFails(lines: seq<string>, k: nat)
    requires k < |lines| && ParseLogLine(lines[k]).Err?
    requires forall j :: 0 <= j < k ==> ParseLogLine(lines[j]).Ok?
    ensures ParseLogLines(lines) == Err(ParseLogLine(lines[k]).error)
    decreases k
  {
    if k > 0 {
      var tail := lines[1..];
      assert tail[k - 1] == lines[k];
      assert forall j :: 0 <= j < k - 1 ==> tail[j] == lines[j + 1];
      ParseLogLinesFails(tail, k - 1);
    }
  }

  /** The line git writes for an entry. */
  function FormatLogLine(e: LogEntry): string {
    e.hash + [FieldSep] + (e.author + [FieldSep] + (e.email + [FieldSep] + (IntToString(e.timestamp) + [FieldSep] + e.message)))
  }

  /** An entry git can write unambiguously: no '|' before the message and no
      line break anywhere. */
  predicate Writable(e: LogEntry) {
    FieldSep !in e.hash && FieldSep !in e.author && FieldSep !in e.email
    && '\n' !in e.hash && '\n' !in e.author && '\n' !in e.email && '\n' !in e.message
  }

  lemma IntToStringChars(i: int)
    ensures FieldSep !in IntToString(i) && '\n' !in IntToString(i)
  {
    var s := IntToString(i);
    if i < 0 {
      assert forall k :: 1 <= k < |s| ==> s[k] == NatToString(-i)[k - 1];
    }
  }

  /** A written line splits back into its five fields. */
  lemma SplitLogLine(e: LogEntry)
    requires Writable(e)
    ensures SplitN(FormatLogLine(e), FieldSep, 4) == [e.hash, e.author, e.email, IntToString(e.timestamp), e.message]
  {
    var ts := IntToString(e.timestamp);
    IntToStringChars(e.timestamp);
    var t3 := ts + [FieldSep] + e.message;
    var t2 := e.email + [FieldSep] + t3;
    var t1 := e.author + [FieldSep] + t2;
    assert SplitN(e.message, FieldSep, 0) == [e.message];
    SplitNAt(ts, e.message, FieldSep, 0);
    assert SplitN(t3, FieldSep, 1) == [ts, e.message];
    SplitNAt(e.email, t3, FieldSep, 1);
    assert SplitN(t2, FieldSep, 2) == [e.email, ts, e.message];
    SplitNAt(e.author, t2, FieldSep, 2);
    assert SplitN(t1, FieldSep, 3) == [e.author, e.email, ts, e.message];
    SplitNAt(e.hash, t1, FieldSep, 3);
  }

  /** A written line parses back to its entry. */
  lemma LogLineRoundTrip(e: LogEntry)
    requires Writable(e)
    ensures ParseLogLine(FormatLogLine(e)) == Ok(Some(e))
  {
    SplitLogLine(e);
    ParseIntOfString(e.timestamp);
  }

  /** A timestamp written with a digit separator is read as int() reads it. */
  lemma ParseLogLineUnderscore()
    ensures ParseLogLine("h|a|e|1_0|m") == Ok(Some(LogEntry("h", "a", "e", 10, "m")))
  {
    SplitUnderscoreLine();
    ParseIntUnderscores();
  }

  lemma SplitUnderscoreLine()
    ensures SplitN("h|a|e|1_0|m", FieldSep, 4) == ["h", "a", "e", "1_0", "m"]
  {
    SplitFields("h", "a", "e", "1_0", "m");
    assert "h" + [FieldSep] + ("a" + [FieldSep] + ("e" + [FieldSep] + ("1_0" + [FieldSep] + "m"))) == "h|a|e|1_0|m";
  }

  /** Four separator-free fields and a tail split back apart. */
  lemma SplitFields(f0: string, f1: string, f2: string, f3: string, tail: string)
    requires FieldSep !in f0 && FieldSep !in f1 && FieldSep !in f2 && FieldSep !in f3
    ensures SplitN(f0 + [FieldSep] + (f1 + [FieldSep] + (f2 + [FieldSep] + (f3 + [FieldSep] + tail))), FieldSep, 4)
            == [f0, f1, f2, f3, tail]
  {
    var t3 := f3 + [FieldSep] + tail;
    var t2 := f2 + [FieldSep] + t3;
    var t1 := f1 + [FieldSep] + t2;
    assert SplitN(tail, FieldSep, 0) == [tail];
    SplitNAt(f3, tail, FieldSep, 0);
    SplitNAt(f2, t3, FieldSep, 1);
    SplitNAt(f1, t2, FieldSep, 2);
    SplitNAt(f0, t1, FieldSep, 3);
  }

  function FormatLogLines(entries: seq<LogEntry>): (r: seq<string>)
    ensures |r| == |entries|
  {
    seq(|entries|, k requires 0 <= k < |entries| => FormatLogLine(entries[k]))
  }

  /** Lines that each parse to an entry parse, together, to those entries. */
  lemma {:induction false} ParseLogLinesAll(lines: seq<string>, entries: seq<LogEntry>)
    requires |lines| == |entries|
    requires forall k :: 0 <= k < |lines| ==> ParseLogLine(lines[k]) == Ok(Some(entries[k]))
    ensures ParseLogLines(lines) == Ok(entries)
  {
    if lines != [] {
      var tl := lines[1..];
      var te := entries[1..];
      assert forall k :: 0 <= k < |tl| ==> tl[k] == lines[k + 1] && te[k] == entries[k + 1];
      ParseLogLinesAll(tl, te);
      ParseLogLinesCons(lines);
      assert ParseLogLine(lines[0]) == Ok(Some(entries[0]));
      assert [entries[0]] + te == entries;
    }
  }

  lemma LogLinesRoundTrip(entries: seq<LogEntry>)
    requires forall k :: 0 <= k < |entries| ==> Writable(entries[k])
    ensures ParseLogLines(FormatLogLines(entries)) == Ok(entries)
  {
    var lines := FormatLogLines(entries);
    forall k | 0 <= k < |lines| ensures ParseLogLine(lines[k]) == Ok(Some(entries[k])) {
      LogLineRoundTrip(entries[k]);
    }
    ParseLogLinesAll(lines, entries);
  }

  /** The first and last characters of a written line. */
  lemma FormatLogLineEnds(e: LogEntry)
    ensures var l := FormatLogLine(e);
      l != [] && l[0] == (if e.hash == [] then FieldSep else e.hash[0])
      && l[|l| - 1] == (if e.message == [] then FieldSep else e.message[|e.message| - 1])
  {
  }

  /** A written line of a writable entry holds no line break. */
  lemma FormatLogLineOneLine(e: LogEntry)
    requires Writable(e)
    ensures '\n' !in FormatLogLine(e)
  {
    IntToStringChars(e.timestamp);
  }

  /** A join whose first and last characters are not white space is left alone by strip. */
  lemma JoinStripped(lines: seq<string>, sep: string)
    requires lines != [] && lines[0] != [] && !IsSpace(lines[0][0])
    requires var last := lines[|lines| - 1]; last != [] && !IsSpace(last[|last| - 1])
    ensures Strip(Join(lines, sep)) == Join(lines, sep)
  {
    JoinFirst(lines, sep);
    JoinLast(lines, sep);
    StripNoSpace(Join(lines, sep));
  }

  /** Stripping the written log removes nothing. */
  lemma LogTextStripped(entries: seq<LogEntry>)
    requires entries != []
    requires entries[0].hash == [] || !IsSpace(entries[0].hash[0])
    requires var m := entries[|entries| - 1].message; m == [] || !IsSpace(m[|m| - 1])
    ensures Strip(Join(FormatLogLines(entries), "\n")) == Join(FormatLogLines(entries), "\n")
  {
    LinesClean(entries);
    JoinStripped(FormatLogLines(entries), "\n");
  }

  /** The written lines start and end without white space when the first
      hash and the last message do. */
  lemma LinesClean(entries: seq<LogEntry>)
    requires entries != []
    requires entries[0].hash == [] || !IsSpace(entries[0].hash[0])
    requires var m := entries[|entries| - 1].message; m == [] || !IsSpace(m[|m| - 1])
    ensures var lines := FormatLogLines(entries); var last := lines[|lines| - 1];
      lines[0] != [] && !IsSpace(lines[0][0]) && last != [] && !IsSpace(last[|last| - 1])
  {
    var lines := FormatLogLines(entries);
    assert lines[0] == FormatLogLine(entries[0]);
    assert lines[|lines| - 1] == FormatLogLine(entries[|entries| - 1]);
    LineStartsClean(entries[0]);
    LineEndsClean(entries[|entries| - 1]);
  }

  lemma LineStartsClean(e: LogEntry)
    requires e.hash == [] || !IsSpace(e.hash[0])
    ensures var l := FormatLogLine(e); l != [] && !IsSpace(l[0])
  {
    FormatLogLineEnds(e);
  }

  lemma LineEndsClean(e: LogEntry)
    requires e.message == [] || !IsSpace(e.message[|e.message| - 1])
    ensures var l := FormatLogLine(e); l != [] && !IsSpace(l[|l| - 1])
  {
    FormatLogLineEnds(e);
  }

  /** The whole output of git log, one line per entry, parses back to the
      entries, provided the text does not begin or end with white space. */
  lemma LogRoundTrip(entries: seq<LogEntry>)
    requires forall k :: 0 <= k < |entries| ==> Writable(entries[k])
    requires entries != [] ==> entries[0].hash == [] || !IsSpace(entries[0].hash[0])
    requires entries != [] ==> var m := entries[|entries| - 1].message; m == [] || !IsSpace(m[|m| - 1])
    ensures ParseGitLog(Join(FormatLogLines(entries), "\n")) == Ok(entries)
  {
    var lines := FormatLogLines(entries);
    if entries == [] {
      assert Join(lines, "\n") == [];
      StripNoSpace([]);
      assert Split([], '\n') == [[]];
      var empty: seq<string> := [[]];
      assert empty[1..] == [];
      assert ParseLogLines([[]]) == Prepend([], ParseLogLines([]));
    } else {
      LogTextStripped(entries);
      forall k | 0 <= k < |lines| ensures '\n' !in lines[k] {
        FormatLogLineOneLine(entries[k]);
      }
      SplitJoin(lines, '\n');
      LogLinesRoundTrip(entries);
    }
  }

  // ------------------------------------------------------------------ changed_files

  predicate NonEmpty(s: string) {
    s != []
  }

  /** changed_files on the output of `git show --pretty= --name-only`: the
      non-empty lines joined with ", ", or "No files". */
  function ChangedFiles(stdout: string): string {
    var files := Filter(Split(Strip(stdout), '\n'), NonEmpty);
    if files == [] then NoFiles else Join(files, FileSep)
  }

  /** The names git prints come back joined with ", "; no names give "No files". */
  lemma ChangedFilesOfNames(names: seq<string>)
    requires forall k :: 0 <= k < |names| ==> names[k] != [] && '\n' !in names[k]
    requires names != [] ==> !IsSpace(names[0][0]) && !IsSpace(names[|names| - 1][|names[|names| - 1]| - 1])
    ensures ChangedFiles(Join(names, "\n")) == if names == [] then NoFiles else Join(names, FileSep)
  {
    var text := Join(names, "\n");
    if names == [] {
      assert Split(Strip(text), '\n') == [[]];
      assert Filter([[]], NonEmpty) == [];
    } else {
      JoinFirst(names, "\n");
      JoinLast(names, "\n");
      StripNoSpace(text);
      SplitJoin(names, '\n');
      FilterKeepsAll(names);
    }
  }

  lemma {:induction false} FilterKeepsAll(names: seq<string>)
    requires forall k :: 0 <= k < |names| ==> names[k] != []
    ensures Filter(names, NonEmpty) == names
  {
    if names != [] {
      FilterKeepsAll(names[1..]);
      assert names == [names[0]] + names[1..];
    }
  }

  // ------------------------------------------------------------------ store_commit and process_repository

  /** A document of the "git-commits" index. */
  datatype CommitDoc = CommitDoc(commitHash: string, repoName: string, author: string, authorEmail: string,
                                 message: string, timestamp: string, changedFiles: string, embedding: seq<real>)

  /** A document of the "git-prs" index; title, body and merged_at are stored
      with dict.get, so a missing key and a null are both None. */
  datatype PrDoc = PrDoc(prNumber: int, owner: string, repo: string, title: Option<string>, body: Option<string>,
                         mergedAt: Option<string>, files: seq<FileItem>, commits: seq<PrCommit>,
                         comments: seq<ReviewComment>, embedding: seq<real>)

  /** The text embedded for a commit. */
  function CommitEmbeddingInput(message: string, changedFiles: string): string {
    "Message: " + message + "\nFiles: " + changedFiles
  }

  /** The document process_repository stores for an entry, from the changed
      files it found and the embedding service. */
  function CommitDocOf(e: LogEntry, repoName: string, files: string, embed: string -> seq<real>,
                       isoformat: int -> string): (d: CommitDoc)
    ensures d.commitHash == e.hash && d.changedFiles == files
    ensures d.embedding == embed(CommitEmbeddingInput(e.message, files))
  {
    CommitDoc(e.hash, repoName, e.author, e.email, e.message, isoformat(e.timestamp), files,
              embed(CommitEmbeddingInput(e.message, files)))
  }

  /** store_commit on the index contents: nothing changes when the hash is there. */
  function StoreCommit(docs: map<string, CommitDoc>, d: CommitDoc): (r: map<string, CommitDoc>)
    ensures d.commitHash in docs ==> r == docs
    ensures d.commitHash !in docs ==> r == docs[d.commitHash := d]
  {
    if d.commitHash in docs then docs else docs[d.commitHash := d]
  }

  /** The git commands process_repository runs, by their output. */
  datatype Git = Git(log: string, show: string -> string)

  /** The index after storing the documents of `entries` in order. */
  function StoreAll(docs: map<string, CommitDoc>, entries: seq<LogEntry>, repoName: string, git: Git,
                    embed: string -> seq<real>, isoformat: int -> string): map<string, CommitDoc>
    decreases |entries|
  {
    if entries == [] then docs
    else
      var e := entries[0];
      var d := CommitDocOf(e, repoName, ChangedFiles(git.show(e.hash)), embed, isoformat);
      StoreAll(StoreCommit(docs, d), entries[1..], repoName, git, embed, isoformat)
  }

  /** First writer wins: a stored document is never replaced, every entry's
      hash ends up stored, and nothing else is added. */
  lemma {:induction false} StoreAllKeeps(docs: map<string, CommitDoc>, entries: seq<LogEntry>, repoName: string,
                                         git: Git, embed: string -> seq<real>, isoformat: int -> string)
    ensures var r := StoreAll(docs, entries, repoName, git, embed, isoformat);
      (forall h :: h in docs ==> h in r && r[h] == docs[h])
      && (forall k :: 0 <= k < |entries| ==> entries[k].hash in r)
      && (forall h :: h in r ==> h in docs || exists k :: 0 <= k < |entries| && entries[k].hash == h)
    decreases |entries|
  {
    if entries != [] {
      var e := entries[0];
      var d := CommitDocOf(e, repoName, ChangedFiles(git.show(e.hash)), embed, isoformat);
      var next := StoreCommit(docs, d);
      StoreAllKeeps(next, entries[1..], repoName, git, embed, isoformat);
      assert forall k :: 1 <= k < |entries| ==> entries[k] == entries[1..][k - 1];
      var r := StoreAll(docs, entries, repoName, git, embed, isoformat);
      forall h | h in r && h !in docs
        ensures exists k :: 0 <= k < |entries| && entries[k].hash == h
      {
        if h !in next {
          var j :| 0 <= j < |entries[1..]| && entries[1..][j].hash == h;
          assert entries[j + 1].hash == h;
        } else {
          assert entries[0].hash == h;
        }
      }
    }
  }

  /** A hash seen first at position k is stored with the document of entry k. */
  lemma {:induction false} StoreAllFirst(docs: map<string, CommitDoc>, entries: seq<LogEntry>, repoName: string,
                                         git: Git, embed: string -> seq<real>, isoformat: int -> string, k: nat)
    requires k < |entries| && entries[k].hash !in docs
    requires forall j :: 0 <= j < k ==> entries[j].hash != entries[k].hash
    ensures entries[k].hash in StoreAll(docs, entries, repoName, git, embed, isoformat)
    ensures StoreAll(docs, entries, repoName, git, embed, isoformat)[entries[k].hash]
            == CommitDocOf(entries[k], repoName, ChangedFiles(git.show(entries[k].hash)), embed, isoformat)
    decreases k
  {
    var e := entries[0];
    var d := CommitDocOf(e, repoName, ChangedFiles(git.show(e.hash)), embed, isoformat);
    var next := StoreCommit(docs, d);
    if k == 0 {
      StoreAllKeeps(next, entries[1..], repoName, git, embed, isoformat);
    } else {
      assert entries[1..][k - 1] == entries[k];
      StoreAllFirst(next, entries[1..], repoName, git, embed, isoformat, k - 1);
    }
  }

  /** The two OpenSearch indices the scripts write. */
  class Indices {
    var commits: map<string, CommitDoc>
    var prs: map<string, PrDoc>

    constructor ()
      ensures commits == map[] && prs == map[]
    {
      commits := map[];
      prs := map[];
    }

    /** store_commit: check whether the hash is indexed, write only if not. */
    method StoreCommitDoc(d: CommitDoc)
      modifies this
      ensures commits == StoreCommit(old(commits), d) && prs == old(prs)
    {
      if d.commitHash !in commits {
        commits := commits[d.commitHash := d];
      }
    }

    /** process_repository: parse the log (its ValueError propagates before
        anything is stored), then give each commit its changed files and
        embedding and store it. */
    method ProcessRepository(repoName: string, git: Git, embed: string -> seq<real>, isoformat: int -> string)
      returns (r: Result<nat, Exception>)
      modifies this
      ensures ParseGitLog(git.log).Err? ==> r == Err(ParseGitLog(git.log).error) && commits == old(commits)
      ensures ParseGitLog(git.log).Ok? ==>
                r == Ok(|ParseGitLog(git.log).value|)
                && commits == StoreAll(old(commits), ParseGitLog(git.log).value, repoName, git, embed, isoformat)
      ensures prs == old(prs)
    {
      var parsed := FetchCommits(git.log);
      if parsed.Err? {
        return Err(parsed.error);
      }
      var entries := parsed.value;
      var i := 0;
      while i < |entries|
        invariant 0 <= i <= |entries|
        invariant StoreAll(old(commits), entries, repoName, git, embed, isoformat)
                  == StoreAll(commits, entries[i..], repoName, git, embed, isoformat)
        invariant prs == old(prs)
      {
        var e := entries[i];
        var files := ChangedFiles(git.show(e.hash));
        var embedding := embed(CommitEmbeddingInput(e.message, files));
        StoreCommitDoc(CommitDoc(e.hash, repoName, e.author, e.email, e.message, isoformat(e.timestamp), files, embedding));
        assert entries[i..][1..] == entries[i + 1..];
        i := i + 1;
      }
      return Ok(|entries|);
    }

    /** process_pr's final write: index the document under its id, replacing
        any earlier one. */
    method IndexPr(id: string, d: PrDoc)
      modifies this
      ensures prs == old(prs)[id := d] && commits == old(commits)
    {
      prs := prs[id := d];
    }
  }

  // ------------------------------------------------------------------ fetch_merged_prs

  /** An item of the pull request listing; only merged_at is read. */
  datatype PrSummary = PrSummary(number: int, mergedAt: Field<string>)

  /** pr.get("merged_at") is truthy: present, not null, not empty. */
  predicate Merged(pr: PrSummary) {
    pr.mergedAt.Present? && pr.mergedAt.value != []
  }

  /** fetch_merged_prs on the listing reply: a non-200 status raises
      RuntimeError; otherwise exactly the merged pull requests, in order. */
  function FetchMergedPrs(status: int, text: string, prs: seq<PrSummary>): (r: Result<seq<PrSummary>, Exception>)
    ensures status != 200 <==> r.Err?
    ensures r.Err? ==> r.error == Exception("PR fetch failed: " + IntToString(status) + ", " + text, "RuntimeError")
    ensures r.Ok? ==> (forall k :: 0 <= k < |r.value| ==> r.value[k] in prs && Merged(r.value[k]))
                      && (forall k :: 0 <= k < |prs| && Merged(prs[k]) ==> prs[k] in r.value)
  {
    if status != 200 then Err(Exception("PR fetch failed: " + IntToString(status) + ", " + text, "RuntimeError"))
    else Ok(Filter(prs, Merged))
  }

  /** Kept pull requests keep their relative order: the merged ones of a
      concatenation are those of each half, one after the other. */
  lemma MergedPrsOrder(a: seq<PrSummary>, b: seq<PrSummary>)
    ensures FetchMergedPrs(200, "", a + b).value == FetchMergedPrs(200, "", a).value + FetchMergedPrs(200, "", b).value
  {
    FilterAppend(a, b, Merged);
  }

  // ------------------------------------------------------------------ process_pr

  /** The PR details object; user is the nested object with its login. */
  datatype PrDetails = PrDetails(title: Field<string>, body: Field<string>, user: Field<User>, mergedAt: Field<string>)
  datatype User = User(login: Field<string>)
  /** An item of the PR files listing. */
  datatype FileItem = FileItem(filename: Field<string>, additions: Field<int>, deletions: Field<int>)
  /** An item of the PR commits listing; commit is the nested object with its message. */
  datatype PrCommit = PrCommit(sha: Field<string>, commit: Field<CommitMessage>)
  datatype CommitMessage = CommitMessage(message: Field<string>)
  /** An item of the review comments listing. */
  datatype ReviewComment = ReviewComment(path: Field<string>, line: Field<int>, body: Field<string>)

  /** f"{d.get(key, default)}" for a string member: the default when the key
      is absent, "None" when it is null. */
  function ShowStr(f: Field<string>, default: string): (r: string)
    ensures f.Absent? ==> r == default
    ensures f.Null? ==> r == "None"
    ensures f.Present? ==> r == f.value
  {
    match f
    case Absent => default
    case Null => "None"
    case Present(s) => s
  }

  function ShowInt(f: Field<int>, default: string): (r: string)
    ensures f.Absent? ==> r == default
    ensures f.Null? ==> r == "None"
    ensures f.Present? ==> r == IntToString(f.value)
  {
    match f
    case Absent => default
    case Null => "None"
    case Present(i) => IntToString(i)
  }

  /** What `.get` on a null member raises. */
  const NoneGet: Exception := Exception("'NoneType' object has no attribute 'get'", "AttributeError")

  function FileLine(f: FileItem): string {
    "  " + ShowStr(f.filename, "None") + " (+" + ShowInt(f.additions, "None") + " / -" + ShowInt(f.deletions, "None") + ")"
  }

  /** c.get('commit', {}).get('message'): a null commit raises. */
  function CommitLine(c: PrCommit): Result<string, Exception> {
    match c.commit
    case Null => Err(NoneGet)
    case Absent => Ok("  " + ShowStr(c.sha, "None") + ": None")
    case Present(m) => Ok("  " + ShowStr(c.sha, "None") + ": " + ShowStr(m.message, "None"))
  }

  /** A missing line number shows as "?", a null one as "None". */
  function CommentLine(rc: ReviewComment): (r: string)
    ensures rc.line.Absent? ==> r == "  In file " + ShowStr(rc.path, "None") + " line ?: " + ShowStr(rc.body, "None")
  {
    "  In file " + ShowStr(rc.path, "None") + " line " + ShowInt(rc.line, "?") + ": " + ShowStr(rc.body, "None")
  }

  /** The lines of the commits section, or the AttributeError of the first null commit. */
  function CommitLines(commits: seq<PrCommit>): (r: Result<seq<string>, Exception>)
    ensures r.Ok? ==> |r.value| == |commits| && forall k :: 0 <= k < |commits| ==> CommitLine(commits[k]) == Ok(r.value[k])
    ensures r.Err? <==> exists k :: 0 <= k < |commits| && CommitLine(commits[k]).Err?
  {
    if commits == [] then Ok([])
    else match CommitLine(commits[0])
      case Err(e) => Err(e)
      case Ok(line) =>
        match CommitLines(commits[1..])
        case Err(e) =>
          assert exists k :: 0 <= k < |commits[1..]| && CommitLine(commits[1..][k]).Err?;
          Err(e)
        case Ok(rest) =>
          assert forall k :: 1 <= k < |commits| ==> commits[k] == commits[1..][k - 1];
          Ok([line] + rest)
  }

  /** The four header lines of the PR text; a null user raises. */
  function HeaderLines(pr: PrDetails): (r: Result<seq<string>, Exception>)
    ensures r.Err? <==> pr.user.Null?
    ensures r.Ok? ==>
      |r.value| == 4 && StartsWith(r.value[0], "Title: ") && StartsWith(r.value[1], "Description: ")
      && StartsWith(r.value[2], "Author: ") && StartsWith(r.value[3], "Merged at: ")
  {
    var login := match pr.user
      case Null => Err(NoneGet)
      case Absent => Ok("")
      case Present(u) => Ok(ShowStr(u.login, ""));
    match login
    case Err(e) => Err(e)
    case Ok(l) =>
      var title := "Title: " + ShowStr(pr.title, "");
      var desc := "Description: " + ShowStr(pr.body, "");
      var author := "Author: " + l;
      var merged := "Merged at: " + ShowStr(pr.mergedAt, "");
      assert title[..7] == "Title: " && desc[..13] == "Description: ";
      assert author[..8] == "Author: " && merged[..11] == "Merged at: ";
      Ok([title, desc, author, merged])
  }

  const FilesHeader: string := "Files changed:"
  const CommitsHeader: string := "Commits in this PR:"
  const CommentsHeader: string := "Review comments:"

  function FileLines(files: seq<FileItem>): (r: seq<string>)
    ensures |r| == |files| && forall k :: 0 <= k < |r| ==> r[k] == FileLine(files[k])
  {
    seq(|files|, k requires 0 <= k < |files| => FileLine(files[k]))
  }

  function CommentLines(comments: seq<ReviewComment>): (r: seq<string>)
    ensures |r| == |comments| && forall k :: 0 <= k < |r| ==> r[k] == CommentLine(comments[k])
  {
    seq(|comments|, k requires 0 <= k < |comments| => CommentLine(comments[k]))
  }

  /** The layout of process_pr's parts: the four headers, then one line per
      file, commit and review comment, each group under its header. */
  predicate PartsShape(p: seq<string>, files: seq<FileItem>, commits: seq<PrCommit>, comments: seq<ReviewComment>) {
    var nf := |files|;
    var nc := |commits|;
    |p| == 7 + nf + nc + |comments|
    && StartsWith(p[0], "Title: ") && StartsWith(p[1], "Description: ")
    && StartsWith(p[2], "Author: ") && StartsWith(p[3], "Merged at: ")
    && p[4] == FilesHeader
    && (forall k :: 0 <= k < nf ==> p[5 + k] == FileLine(files[k]))
    && p[5 + nf] == CommitsHeader
    && (forall k :: 0 <= k < nc ==> Ok(p[6 + nf + k]) == CommitLine(commits[k]))
    && p[6 + nf + nc] == CommentsHeader
    && (forall k :: 0 <= k < |comments| ==> p[7 + nf + nc + k] == CommentLine(comments[k]))
  }

  /** Where each piece lands in the concatenated list of parts. */
  lemma PartsLayout(head: seq<string>, files: seq<FileItem>, commits: seq<PrCommit>, cl: seq<string>,
                    comments: seq<ReviewComment>)
    requires |head| == 4 && StartsWith(head[0], "Title: ") && StartsWith(head[1], "Description: ")
    requires StartsWith(head[2], "Author: ") && StartsWith(head[3], "Merged at: ")
    requires |cl| == |commits| && forall k :: 0 <= k < |commits| ==> CommitLine(commits[k]) == Ok(cl[k])
    ensures PartsShape(head + [FilesHeader] + FileLines(files) + [CommitsHeader] + cl + [CommentsHeader]
                         + CommentLines(comments), files, commits, comments)
  {
    var fl := FileLines(files);
    var rl := CommentLines(comments);
    var p := head + [FilesHeader] + fl + [CommitsHeader] + cl + [CommentsHeader] + rl;
    assert forall k :: 0 <= k < |fl| ==> p[5 + k] == fl[k];
    assert forall k :: 0 <= k < |cl| ==> p[6 + |fl| + k] == cl[k];
    assert forall k :: 0 <= k < |rl| ==> p[7 + |fl| + |cl| + k] == rl[k];
  }

  /** The list `parts` of process_pr, before the "\n" join. */
  function PrParts(pr: PrDetails, files: seq<FileItem>, commits: seq<PrCommit>, comments: seq<ReviewComment>)
    : (r: Result<seq<string>, Exception>)
    ensures r.Ok? ==> PartsShape(r.value, files, commits, comments)
    ensures r.Err? <==> pr.user.Null? || exists k :: 0 <= k < |commits| && CommitLine(commits[k]).Err?
  {
    match HeaderLines(pr)
    case Err(e) => Err(e)
    case Ok(head) =>
      match CommitLines(commits)
      case Err(e) => Err(e)
      case Ok(cl) =>
        PartsLayout(head, files, commits, cl, comments);
        Ok(head + [FilesHeader] + FileLines(files) + [CommitsHeader] + cl + [CommentsHeader] + CommentLines(comments))
  }

  /** The id of a PR document. */
  function PrDocId(owner: string, repo: string, number: int): string {
    owner + "_" + repo + "_" + IntToString(number)
  }

  /** Reads an id back: the owner up to the first '_', the number after the
      last one, the repository in between. */
  function ParsePrDocId(id: string): Option<(string, string, int)> {
    var parts := Split(id, '_');
    if |parts| < 3 then None
    else match ParseInt(parts[|parts| - 1])
      case None => None
      case Some(n) => Some((parts[0], Join(parts[1..|parts| - 1], "_"), n))
  }

  /** The id names its pull request: for an owner without '_' (GitHub account
      names have none) the triple reads back, so distinct pull requests get
      distinct documents and reprocessing one replaces its own. */
  lemma PrDocIdRoundTrip(owner: string, repo: string, number: int)
    requires '_' !in owner
    ensures ParsePrDocId(PrDocId(owner, repo, number)) == Some((owner, repo, number))
  {
    var n := IntToString(number);
    assert '_' !in n by {
      if number < 0 {
        assert forall k :: 1 <= k < |n| ==> n[k] == NatToString(-number)[k - 1];
      }
    }
    var id := PrDocId(owner, repo, number);
    assert id == owner + ['_'] + (repo + ['_'] + n);
    SplitAt(owner, repo + ['_'] + n, '_');
    SplitConcat(repo, n, '_');
    SplitNoSep(n, '_');
    var parts := Split(id, '_');
    assert parts == [owner] + Split(repo, '_') + [n];
    assert parts[1..|parts| - 1] == Split(repo, '_');
    JoinSplit(repo, '_');
    ParseIntOfString(number);
  }

  lemma PrDocIdInjective(o1: string, r1: string, n1: int, o2: string, r2: string, n2: int)
    requires '_' !in o1 && '_' !in o2
    ensures PrDocId(o1, r1, n1) == PrDocId(o2, r2, n2) <==> (o1, r1, n1) == (o2, r2, n2)
  {
    PrDocIdRoundTrip(o1, r1, n1);
    PrDocIdRoundTrip(o2, r2, n2);
  }

  /** A GitHub reply: status code and decoded body. */
  datatype Reply<T> = Reply(status: int, body: T)

  /** The four requests process_pr makes for one pull request. */
  datatype PrApi = PrApi(details: Reply<PrDetails>, commits: Reply<seq<PrCommit>>, files: Reply<seq<FileItem>>,
                         comments: Reply<seq<ReviewComment>>)

  /** A listing whose request failed counts as empty. */
  function ListOrEmpty<T>(r: Reply<seq<T>>): (items: seq<T>)
    ensures r.status == 200 ==> items == r.body
    ensures r.status != 200 ==> items == []
  {
    if r.status != 200 then [] else r.body
  }

  /** The document process_pr indexes, or the exception it raises. */
  function PrDocOf(owner: string, repo: string, number: int, api: PrApi, embed: string -> seq<real>)
    : Result<PrDoc, Exception>
  {
    if api.details.status != 200 then Err(Exception("PR fetch failed: " + IntToString(api.details.status), "RuntimeError"))
    else
      var pr := api.details.body;
      var commits := ListOrEmpty(api.commits);
      var files := ListOrEmpty(api.files);
      var comments := ListOrEmpty(api.comments);
      match PrParts(pr, files, commits, comments)
      case Err(e) => Err(e)
      case Ok(parts) =>
        Ok(PrDoc(number, owner, repo, DictGet(pr.title), DictGet(pr.body), DictGet(pr.mergedAt), files, commits, comments,
                 embed(Join(parts, "\n"))))
  }

  /** process_pr: build the document and index it under its id. */
  method ProcessPr(ix: Indices, owner: string, repo: string, number: int, api: PrApi, embed: string -> seq<real>)
    returns (r: Result<(), Exception>)
    modifies ix
    ensures PrDocOf(owner, repo, number, api, embed).Err? ==>
              r == Err(PrDocOf(owner, repo, number, api, embed).error) && ix.prs == old(ix.prs)
    ensures PrDocOf(owner, repo, number, api, embed).Ok? ==>
              r == Ok(()) && ix.prs == old(ix.prs)[PrDocId(owner, repo, number) := PrDocOf(owner, repo, number, api, embed).value]
    ensures ix.commits == old(ix.commits)
  {
    var doc := PrDocOf(owner, repo, number, api, embed);
    if doc.Err? {
      return Err(doc.error);
    }
    ix.IndexPr(PrDocId(owner, repo, number), doc.value);
    return Ok(());
  }
}
