/** The batch GitHub processor: it parses a repository URL in either of two
    forms, pages through the commit and pull request listings of the GitHub
    REST API up to fixed caps, attaches each commit's file patches and each
    pull request's patch text, and saves both lists.

    HTTP requests are function parameters: a listing request takes the page
    number and the requested page size; detail requests take the URL the
    source reads from the item. The caps and page sizes come from a
    configuration module and are parameters here. */
module GitHubProcessor {
  import opened Common

  const HttpsPrefix: string := "https://github.com/"
  const SshPrefix: string := "git@github.com:"
  const GitSuffix: string := ".git"
  const ApiPrefix: string := "https://api.github.com/repos/"
  const UnsupportedUrl: string := "Unsupported repository URL format: "
  const InvalidUrl: string := "Invalid repository URL format: "
  const DiffMarker: string := "--- "

  datatype RepoInfo = RepoInfo(owner: string, repo: string, apiUrl: string)

  // ------------------------------------------------------------------ extract_repo_info

  /** The path part of an accepted URL, before the split on '/': None for a URL
      in neither form. `trailingGit` says how ".git" is removed from the SSH form. */
  function PathPart(url: string, dropGit: string -> string): Option<string> {
    if StartsWith(url, HttpsPrefix) then Some(RStripChar(Replace(url, HttpsPrefix, ""), '/'))
    else if StartsWith(url, SshPrefix) then Some(dropGit(Replace(url, SshPrefix, "")))
    else None
  }

  function RepoInfoOf(url: string, dropGit: string -> string): (r: Result<RepoInfo, Exception>)
    ensures r.Err? ==> r.error.typeName == "ValueError"
    ensures r.Ok? ==> (StartsWith(url, HttpsPrefix) || StartsWith(url, SshPrefix))
                      && r.value.apiUrl == ApiPrefix + r.value.owner + "/" + r.value.repo
    ensures PathPart(url, dropGit).None? ==> r == Err(Exception(UnsupportedUrl + url, "ValueError"))
    ensures PathPart(url, dropGit).Some? ==>
              (r.Ok? <==> |Split(PathPart(url, dropGit).value, '/')| == 2)
  {
    match PathPart(url, dropGit)
    case None => Err(Exception(UnsupportedUrl + url, "ValueError"))
    case Some(path) =>
      var parts := Split(path, '/');
      if |parts| != 2 then Err(Exception(InvalidUrl + url, "ValueError"))
      else Ok(RepoInfo(parts[0], parts[1], ApiPrefix + parts[0] + "/" + parts[1]))
  }

  /** str.replace('.git', ''): every occurrence goes. */
  function RemoveEveryGit(s: string): string {
    Replace(s, GitSuffix, "")
  }

  /** Only a trailing ".git" goes. */
  function RemoveTrailingGit(s: string): (r: string)
    ensures EndsWith(s, GitSuffix) ==> r + GitSuffix == s
    ensures !EndsWith(s, GitSuffix) ==> r == s
  {
    if EndsWith(s, GitSuffix) then s[..|s| - |GitSuffix|] else s
  }

  /** GitProcessor.extract_repo_info as written: the SSH form removes ".git"
      wherever it occurs in the path. */
  function ExtractRepoInfoAsWritten(url: string): (r: Result<RepoInfo, Exception>)
    ensures r.Ok? ==> r.value.apiUrl == ApiPrefix + r.value.owner + "/" + r.value.repo
  {
    RepoInfoOf(url, RemoveEveryGit)
  }

  /** GitProcessor.extract_repo_info with only the ".git" suffix removed;
      the rest of the model uses this one. */
  function ExtractRepoInfo(url: string): (r: Result<RepoInfo, Exception>)
    ensures r.Ok? ==> r.value.apiUrl == ApiPrefix + r.value.owner + "/" + r.value.repo
  {
    RepoInfoOf(url, RemoveTrailingGit)
  }

  /** The endpoints fetch_commits and fetch_pull_requests request. */
  function CommitsUrl(info: RepoInfo): string {
    info.apiUrl + "/commits"
  }

  function PullsUrl(info: RepoInfo): string {
    info.apiUrl + "/pulls"
  }

  /** A pattern holding a character the string lacks does not occur in it. */
  lemma {:induction false} NotContainsChar(s: string, p: string, c: char)
    requires c in p && c !in s
    ensures !Contains(s, p)
    decreases |s|
  {
    if s != [] {
      NotContainsChar(s[1..], p, c);
    }
  }

  /** The SSH prefix is removed once when nothing after it holds an '@'. */
  lemma SshPrefixRemoved(path: string)
    requires '@' !in path
    ensures Replace(SshPrefix + path, SshPrefix, "") == path
    ensures !StartsWith(SshPrefix + path, HttpsPrefix)
  {
    var url := SshPrefix + path;
    assert SshPrefix[3] == '@';
    NotContainsChar(path, SshPrefix, '@');
    assert StartsWith(url, SshPrefix);
    assert url[|SshPrefix|..] == path;
    ReplaceAbsent(path, SshPrefix, "");
    assert url[0] == 'g' && HttpsPrefix[0] == 'h';
  }

  lemma RemoveEveryGitExample()
    ensures RemoveEveryGit("o/.gitx") == "o/x"
  {
    assert !StartsWith("x", GitSuffix);
    assert "x"[1..] == [];
    assert Replace("x", GitSuffix, "") == "x";
    assert StartsWith(".gitx", GitSuffix);
    assert ".gitx"[|GitSuffix|..] == "x";
    assert Replace(".gitx", GitSuffix, "") == "x";
    assert GitSuffix[0] == '.';
    assert !StartsWith("/.gitx", GitSuffix) by { assert "/.gitx"[..4][0] == '/'; }
    assert "/.gitx"[1..] == ".gitx";
    assert Replace("/.gitx", GitSuffix, "") == "/x";
    assert !StartsWith("o/.gitx", GitSuffix) by { assert "o/.gitx"[..4][0] == 'o'; }
    assert "o/.gitx"[1..] == "/.gitx";
  }

  /** An SSH URL whose path holds no '@' has that path as its path part. */
  lemma SshPathPart(path: string, dropGit: string -> string)
    requires '@' !in path
    ensures PathPart(SshPrefix + path, dropGit) == Some(dropGit(path))
  {
    SshPrefixRemoved(path);
  }

  /** A path part of exactly two '/'-free segments is read as owner and repository. */
  lemma RepoInfoOfTwoSegments(url: string, dropGit: string -> string, owner: string, repo: string)
    requires PathPart(url, dropGit) == Some(owner + "/" + repo)
    requires '/' !in owner && '/' !in repo
    ensures RepoInfoOf(url, dropGit) == Ok(RepoInfo(owner, repo, ApiPrefix + owner + "/" + repo))
  {
    assert owner + "/" + repo == owner + ['/'] + repo;
    SplitAt(owner, repo, '/');
    SplitNoSep(repo, '/');
  }

  /** A repository whose name holds ".git" is misread by the code as written:
      git@github.com:o/.gitx names repository ".gitx", but ".git" is removed
      from its middle and the repository comes out as "x". */
  lemma AsWrittenDropsInnerGit()
    ensures ExtractRepoInfoAsWritten(SshPrefix + "o/.gitx") == Ok(RepoInfo("o", "x", ApiPrefix + "o" + "/" + "x"))
  {
    var path := "o/.gitx";
    assert '@' !in path;
    SshPathPart(path, RemoveEveryGit);
    RemoveEveryGitExample();
    assert "o" + "/" + "x" == "o/x";
    RepoInfoOfTwoSegments(SshPrefix + path, RemoveEveryGit, "o", "x");
  }

  /** The corrected parser reads the same URL as repository ".gitx". */
  lemma CorrectedKeepsInnerGit()
    ensures ExtractRepoInfo(SshPrefix + "o/.gitx") == Ok(RepoInfo("o", ".gitx", ApiPrefix + "o" + "/" + ".gitx"))
  {
    assert !EndsWith(".gitx", GitSuffix) by {
      assert ".gitx"[1..][0] == 'g' && GitSuffix[0] == '.';
    }
    ExtractSshRoundTrip("o", ".gitx", false);
    assert SshPrefix + "o/.gitx" == SshPrefix + "o" + "/" + ".gitx" + "";
  }

  /** The SSH form of the corrected parser reads back owner and repository,
      with or without the ".git" suffix. */
  lemma ExtractSshRoundTrip(owner: string, repo: string, suffix: bool)
    requires '/' !in owner && '/' !in repo && '@' !in owner && '@' !in repo && !EndsWith(repo, GitSuffix)
    ensures ExtractRepoInfo(SshPrefix + owner + "/" + repo + (if suffix then GitSuffix else ""))
            == Ok(RepoInfo(owner, repo, ApiPrefix + owner + "/" + repo))
  {
    var tail := owner + "/" + repo;
    var path := tail + (if suffix then GitSuffix else "");
    assert SshPrefix + owner + "/" + repo + (if suffix then GitSuffix else "") == SshPrefix + path;
    assert '@' !in path by {
      assert GitSuffix == ".git";
      assert forall k :: 0 <= k < |path| ==> path[k] in owner || path[k] == '/' || path[k] in repo || path[k] in GitSuffix;
    }
    SshPathPart(path, RemoveTrailingGit);
    RemoveTrailingGitOfTail(owner, repo, suffix);
    RepoInfoOfTwoSegments(SshPrefix + path, RemoveTrailingGit, owner, repo);
  }

  lemma RemoveTrailingGitOfTail(owner: string, repo: string, suffix: bool)
    requires '/' !in repo && !EndsWith(repo, GitSuffix)
    ensures RemoveTrailingGit(owner + "/" + repo + (if suffix then GitSuffix else "")) == owner + "/" + repo
  {
    var tail := owner + "/" + repo;
    var path := tail + (if suffix then GitSuffix else "");
    if suffix {
      assert path[..|path| - |GitSuffix|] == tail;
    } else if |repo| >= |GitSuffix| {
      assert tail[|tail| - |GitSuffix|..] == repo[|repo| - |GitSuffix|..];
    } else if |tail| >= |GitSuffix| {
      var j := |owner| - (|tail| - |GitSuffix|);
      assert tail[|owner|] == '/';
      assert tail[|tail| - |GitSuffix|..][j] == '/';
      assert GitSuffix[j] != '/';
    }
  }

  // ------------------------------------------------------------------ paging

  /** One listing request's outcome: a RequestException, or the decoded page. */
  datatype PageReply<A> = RequestFailed | Page(items: seq<A>)

  /** The listing at one endpoint, as a function of page number and per_page. */
  function Listing<A>(api: (string, nat, nat) -> PageReply<A>, endpoint: string): (nat, nat) -> PageReply<A> {
    (page: nat, size: nat) => api(endpoint, page, size)
  }

  /** Converts every item of a page in order; the first failure (an uncaught
      KeyError) is the result. */
  function ConvertAll<A, B>(items: seq<A>, convert: A -> Result<B, Exception>): (r: Result<seq<B>, Exception>)
    ensures r.Ok? ==> |r.value| == |items|
  {
    if items == [] then Ok([])
    else match ConvertAll(items[..|items| - 1], convert)
      case Err(e) => Err(e)
      case Ok(prefix) =>
        match convert(items[|items| - 1])
        case Err(e) => Err(e)
        case Ok(b) => Ok(prefix + [b])
  }

  /** The paging loop shared by fetch_commits and fetch_pull_requests, from
      `acc` collected and page `page` on: request min(perPage, cap - collected)
      items; stop at the cap, on a failed request, on an empty page, or after a
      page shorter than perPage. */
  function Paged<A, B>(cap: nat, perPage: nat, api: (nat, nat) -> PageReply<A>,
                       convert: A -> Result<B, Exception>, acc: seq<B>, page: nat): Result<seq<B>, Exception>
    requires perPage > 0
    decreases cap - |acc|
  {
    if |acc| >= cap then Ok(acc)
    else match api(page, Min(perPage, cap - |acc|))
      case RequestFailed => Ok(acc)
      case Page(items) =>
        if items == [] then Ok(acc)
        else match ConvertAll(items, convert)
          case Err(e) => Err(e)
          case Ok(records) =>
            if |items| < perPage then Ok(acc + records)
            else Paged(cap, perPage, api, convert, acc + records, page + 1)
  }

  /** One full page of the paging loop: its records are collected, and a
      short page ends the loop. */
  lemma PagedStep<A, B>(cap: nat, perPage: nat, api: (nat, nat) -> PageReply<A>,
                        convert: A -> Result<B, Exception>, acc: seq<B>, page: nat, items: seq<A>, records: seq<B>)
    requires perPage > 0 && |acc| < cap && api(page, Min(perPage, cap - |acc|)) == Page(items)
    requires items != [] && ConvertAll(items, convert) == Ok(records)
    ensures Paged(cap, perPage, api, convert, acc, page)
            == if |items| < perPage then Ok(acc + records) else Paged(cap, perPage, api, convert, acc + records, page + 1)
  {
  }

  /** What is collected is never dropped: the result extends the records collected so far. */
  lemma {:induction false} PagedExtends<A, B>(cap: nat, perPage: nat, api: (nat, nat) -> PageReply<A>,
                                              convert: A -> Result<B, Exception>, acc: seq<B>, page: nat)
    requires perPage > 0
    ensures var r := Paged(cap, perPage, api, convert, acc, page);
      r.Ok? ==> StartsWith(r.value, acc)
    decreases cap - |acc|
  {
    if |acc| < cap {
      match api(page, Min(perPage, cap - |acc|))
      case RequestFailed =>
      case Page(items) =>
        if items != [] && ConvertAll(items, convert).Ok? {
          var next := acc + ConvertAll(items, convert).value;
          assert next[..|acc|] == acc;
          if |items| >= perPage {
            PagedExtends(cap, perPage, api, convert, next, page + 1);
          }
        }
    }
  }

  /** A server that never sends more than the page size asked for */
  ghost predicate HonoursPageSize<A>(api: (nat, nat) -> PageReply<A>) {
    forall page: nat, size: nat :: api(page, size).Page? ==> |api(page, size).items| <= size
  }

  /** ... never makes the loop collect more than the cap. */
  lemma {:induction false} PagedBounded<A, B>(cap: nat, perPage: nat, api: (nat, nat) -> PageReply<A>,
                                              convert: A -> Result<B, Exception>, acc: seq<B>, page: nat)
    requires perPage > 0 && HonoursPageSize(api) && |acc| <= cap
    ensures var r := Paged(cap, perPage, api, convert, acc, page);
      r.Ok? ==> |r.value| <= cap
    decreases cap - |acc|
  {
    if |acc| < cap {
      var size := Min(perPage, cap - |acc|);
      match api(page, size)
      case RequestFailed =>
      case Page(items) =>
        assert |items| <= size;
        if items != [] && ConvertAll(items, convert).Ok? && |items| >= perPage {
          PagedBounded(cap, perPage, api, convert, acc + ConvertAll(items, convert).value, page + 1);
        }
    }
  }

  /** A server that always sends a full page of well-formed items */
  ghost predicate AlwaysFull<A, B>(api: (nat, nat) -> PageReply<A>, convert: A -> Result<B, Exception>) {
    forall page: nat, size: nat :: api(page, size).Page? && |api(page, size).items| == size
                                   && ConvertAll(api(page, size).items, convert).Ok?
  }

  /** ... makes the loop collect exactly the cap. */
  lemma {:induction false} PagedFull<A, B>(cap: nat, perPage: nat, api: (nat, nat) -> PageReply<A>,
                                           convert: A -> Result<B, Exception>, acc: seq<B>, page: nat)
    requires perPage > 0 && AlwaysFull(api, convert) && |acc| <= cap
    ensures var r := Paged(cap, perPage, api, convert, acc, page);
      r.Ok? && |r.value| == cap
    decreases cap - |acc|
  {
    if |acc| < cap {
      var size := Min(perPage, cap - |acc|);
      var items := api(page, size).items;
      assert api(page, size).Page? && |items| == size && ConvertAll(items, convert).Ok?;
      if |items| >= perPage {
        PagedFull(cap, perPage, api, convert, acc + ConvertAll(items, convert).value, page + 1);
      }
    }
  }

  // ------------------------------------------------------------------ commits

  datatype Person = Person(name: string, email: string, date: string)

  /** One item of the commits listing. A missing key is None (or Absent); the
      nested `commit`, `commit.author` and `commit.committer` objects may also
      be JSON null. */
  datatype CommitItem = CommitItem(sha: Option<string>, commit: Field<CommitBody>,
                                   htmlUrl: Option<string>, apiUrl: Option<string>)

  datatype CommitBody = CommitBody(message: Option<string>, author: Field<PersonItem>, committer: Field<PersonItem>)

  datatype PersonItem = PersonItem(name: Option<string>, email: Option<string>, date: Option<string>)

  datatype CommitRecord = CommitRecord(sha: string, message: string, author: Person, committer: Person,
                                       url: string, codeDiff: string)

  /** One entry of a commit's `files` list. */
  datatype FileEntry = FileEntry(filename: Option<string>, patch: Option<string>)

  /** The detail request for one commit: any exception, or the decoded object
      with its `files` list (None when the key is absent). */
  datatype DetailReply = DetailFailed | Detail(files: Option<seq<FileEntry>>)

  function KeyError(key: string): Exception {
    Exception("'" + key + "'", "KeyError")
  }

  /** What indexing a nested object with a key raises: KeyError when the
      object itself is absent, TypeError when it is null. */
  function ObjectFault<T>(f: Field<T>, key: string): (r: Option<Exception>)
    ensures r.None? <==> f.Present?
    ensures f.Null? ==> r == Some(NoneSubscript)
    ensures f.Absent? ==> r == Some(KeyError(key))
  {
    match f
    case Absent => Some(KeyError(key))
    case Null => Some(NoneSubscript)
    case Present(_) => None
  }

  /** The exception reading name, email and date of a person object raises, if any. */
  function PersonFault(p: Field<PersonItem>, key: string): (r: Option<Exception>)
    ensures r.None? <==> p.Present? && p.value.name.Some? && p.value.email.Some? && p.value.date.Some?
    ensures r == Some(NoneSubscript) <==> p.Null?
  {
    if ObjectFault(p, key).Some? then ObjectFault(p, key)
    else if p.value.name.None? then Some(KeyError("name"))
    else if p.value.email.None? then Some(KeyError("email"))
    else if p.value.date.None? then Some(KeyError("date"))
    else None
  }

  /** The exception building commit_data raises, reading the keys in the
      source's order: KeyError for the first absent key, TypeError for a null
      object reached before it. */
  function CommitFault(item: CommitItem): (r: Option<Exception>)
    ensures r.None? <==> (item.sha.Some? && item.commit.Present? && item.commit.value.message.Some?
                          && PersonFault(item.commit.value.author, "author").None?
                          && PersonFault(item.commit.value.committer, "committer").None?
                          && item.htmlUrl.Some?)
    ensures r == Some(NoneSubscript) <==>
              item.sha.Some?
              && (item.commit.Null?
                  || (item.commit.Present? && item.commit.value.message.Some?
                      && (item.commit.value.author.Null?
                          || (PersonFault(item.commit.value.author, "author").None?
                              && item.commit.value.committer.Null?))))
  {
    if item.sha.None? then Some(KeyError("sha"))
    else if ObjectFault(item.commit, "commit").Some? then ObjectFault(item.commit, "commit")
    else if item.commit.value.message.None? then Some(KeyError("message"))
    else if PersonFault(item.commit.value.author, "author").Some? then PersonFault(item.commit.value.author, "author")
    else if PersonFault(item.commit.value.committer, "committer").Some? then
      PersonFault(item.commit.value.committer, "committer")
    else if item.htmlUrl.None? then Some(KeyError("html_url"))
    else None
  }

  function PersonOf(p: Field<PersonItem>): Person
    requires PersonFault(p, "").None?
  {
    Person(p.value.name.value, p.value.email.value, p.value.date.value)
  }

  /** The "--- filename\npatch" parts of the files with a non-empty patch, in
      order; None where a file with a patch has no filename (a KeyError). */
  function DiffParts(files: seq<FileEntry>): Option<seq<string>> {
    if files == [] then Some([])
    else match DiffParts(files[..|files| - 1])
      case None => None
      case Some(parts) =>
        var f := files[|files| - 1];
        if f.patch.None? || f.patch.value == [] then Some(parts)
        else if f.filename.None? then None
        else Some(parts + [DiffMarker + f.filename.value + "\n" + f.patch.value])
  }

  /** The files that contribute a part: those with a non-empty patch. */
  function Patched(files: seq<FileEntry>): seq<FileEntry> {
    Filter(files, (f: FileEntry) => f.patch.Some? && f.patch.value != [])
  }

  /** Without a KeyError, there is one part per patched file, in order. */
  lemma {:induction false} DiffPartsOnePerPatch(files: seq<FileEntry>)
    ensures DiffParts(files).Some? ==> |DiffParts(files).value| == |Patched(files)|
    ensures DiffParts(files).Some? ==> forall k :: 0 <= k < |Patched(files)| ==> Patched(files)[k].filename.Some?
    ensures DiffParts(files).Some? ==> forall k :: 0 <= k < |Patched(files)| ==>
              DiffParts(files).value[k] == DiffMarker + Patched(files)[k].filename.value + "\n" + Patched(files)[k].patch.value
  {
    if files != [] {
      var init := files[..|files| - 1];
      var f := files[|files| - 1];
      DiffPartsOnePerPatch(init);
      assert files == init + [f];
      FilterAppend(init, [f], (f: FileEntry) => f.patch.Some? && f.patch.value != []);
      assert [f][1..] == [];
    }
  }

  /** The code_diff a commit ends with: '' when the detail request fails, has
      no `files`, or a patched file lacks its name; the joined parts otherwise. */
  function CodeDiff(reply: DetailReply): string {
    match reply
    case DetailFailed => ""
    case Detail(None) => ""
    case Detail(Some(files)) =>
      match DiffParts(files)
      case None => ""
      case Some(parts) => Join(parts, "\n")
  }

  /** The record of one listed commit; a missing key is an uncaught KeyError
      (a null object an uncaught TypeError),
      and a missing detail URL leaves the diff empty. */
  function CommitOf(item: CommitItem, detailApi: string -> DetailReply): Result<CommitRecord, Exception> {
    var fault := CommitFault(item);
    if fault.Some? then Err(fault.value)
    else
      Ok(CommitRecord(item.sha.value, item.commit.value.message.value,
                      PersonOf(item.commit.value.author), PersonOf(item.commit.value.committer),
                      item.htmlUrl.value,
                      if item.apiUrl.None? then "" else CodeDiff(detailApi(item.apiUrl.value))))
  }

  /** The inner loop over a commit's files: accumulate the diff parts. */
  method CollectDiffParts(files: seq<FileEntry>) returns (parts: Option<seq<string>>)
    ensures parts == DiffParts(files)
  {
    var acc: seq<string> := [];
    var i := 0;
    while i < |files|
      invariant 0 <= i <= |files|
      invariant DiffParts(files[..i]) == Some(acc)
    {
      assert files[..i + 1][..i] == files[..i];
      var f := files[i];
      if f.patch.Some? && f.patch.value != [] {
        if f.filename.None? {
          assert DiffParts(files[..i + 1]).None?;
          DiffPartsNoneSticks(files, i + 1);
          return None;
        }
        acc := acc + [DiffMarker + f.filename.value + "\n" + f.patch.value];
      }
      i := i + 1;
    }
    assert files[..i] == files;
    return Some(acc);
  }

  /** Once a KeyError happened, later files do not matter. */
  lemma {:induction false} DiffPartsNoneSticks(files: seq<FileEntry>, n: nat)
    requires n <= |files| && DiffParts(files[..n]).None?
    ensures DiffParts(files).None?
    decreases |files| - n
  {
    if n < |files| {
      assert files[..n + 1][..n] == files[..n];
      DiffPartsNoneSticks(files, n + 1);
    } else {
      assert files[..n] == files;
    }
  }

  /** The body of the commit loop for one item. */
  method CommitRecordOf(item: CommitItem, detailApi: string -> DetailReply) returns (r: Result<CommitRecord, Exception>)
    ensures r == CommitOf(item, detailApi)
  {
    var fault := CommitFault(item);
    if fault.Some? {
      return Err(fault.value);
    }
    var codeDiff := "";
    if item.apiUrl.Some? {
      var detail := detailApi(item.apiUrl.value);
      if detail.Detail? && detail.files.Some? {
        var parts := CollectDiffParts(detail.files.value);
        if parts.Some? {
          codeDiff := Join(parts.value, "\n");
        }
      }
    }
    r := Ok(CommitRecord(item.sha.value, item.commit.value.message.value,
                         PersonOf(item.commit.value.author), PersonOf(item.commit.value.committer),
                         item.htmlUrl.value, codeDiff));
  }

  /** fetch_commits: the paging loop over the commits listing. */
  method FetchCommits(info: RepoInfo, cap: nat, perPage: nat, api: (string, nat, nat) -> PageReply<CommitItem>,
                      detailApi: string -> DetailReply) returns (r: Result<seq<CommitRecord>, Exception>)
    requires perPage > 0
    ensures r == Paged(cap, perPage, Listing(api, CommitsUrl(info)), (c: CommitItem) => CommitOf(c, detailApi), [], 1)
  {
    var url := CommitsUrl(info);
    ghost var listing := Listing(api, url);
    ghost var convert := (c: CommitItem) => CommitOf(c, detailApi);
    var commits: seq<CommitRecord> := [];
    var page: nat := 1;
    while |commits| < cap
      invariant Paged(cap, perPage, listing, convert, commits, page) == Paged(cap, perPage, listing, convert, [], 1)
      decreases cap - |commits|
    {
      var reply := api(url, page, Min(perPage, cap - |commits|));
      assert listing(page, Min(perPage, cap - |commits|)) == reply;
      if reply.RequestFailed? || reply.items == [] {
        return Ok(commits);
      }
      var items := reply.items;
      ghost var before := commits;
      for i := 0 to |items|
        invariant ConvertAll(items[..i], convert).Ok? && commits == before + ConvertAll(items[..i], convert).value
      {
        assert items[..i + 1][..i] == items[..i];
        var c := CommitRecordOf(items[i], detailApi);
        if c.Err? {
          ConvertAllErrSticks(items, convert, i + 1);
          return Err(c.error);
        }
        commits := commits + [c.value];
      }
      assert items[..|items|] == items;
      PagedStep(cap, perPage, listing, convert, before, page, items, ConvertAll(items, convert).value);
      page := page + 1;
      if |items| < perPage {
        return Ok(commits);
      }
    }
    return Ok(commits);
  }

  /** Once a conversion failed, the failure is the page's result. */
  lemma {:induction false} ConvertAllErrSticks<A, B>(items: seq<A>, convert: A -> Result<B, Exception>, n: nat)
    requires 0 < n <= |items| && ConvertAll(items[..n - 1], convert).Ok? && convert(items[n - 1]).Err?
    ensures ConvertAll(items, convert) == Err(convert(items[n - 1]).error)
    decreases |items| - n
  {
    assert items[..n][..n - 1] == items[..n - 1];
    if n < |items| {
      ConvertAllErrAfter(items, convert, n, n + 1);
    } else {
      assert items[..n] == items;
    }
  }

  lemma {:induction false} ConvertAllErrAfter<A, B>(items: seq<A>, convert: A -> Result<B, Exception>, n: nat, m: nat)
    requires 0 < n < m <= |items| && ConvertAll(items[..n], convert).Err?
    ensures ConvertAll(items[..m], convert) == ConvertAll(items[..n], convert)
    ensures ConvertAll(items, convert) == ConvertAll(items[..n], convert)
    decreases |items| - m
  {
    assert items[..m][..m - 1] == items[..m - 1];
    if m - 1 > n {
      ConvertAllErrAfterStep(items, convert, n, m - 1);
    }
    if m < |items| {
      ConvertAllErrAfter(items, convert, n, m + 1);
    } else {
      assert items[..m] == items;
    }
  }

  lemma {:induction false} ConvertAllErrAfterStep<A, B>(items: seq<A>, convert: A -> Result<B, Exception>, n: nat, m: nat)
    requires 0 < n <= m <= |items| && ConvertAll(items[..n], convert).Err?
    ensures ConvertAll(items[..m], convert) == ConvertAll(items[..n], convert)
    decreases m - n
  {
    if m > n {
      ConvertAllErrAfterStep(items, convert, n, m - 1);
      assert items[..m][..m - 1] == items[..m - 1];
    }
  }

  // ------------------------------------------------------------------ pull requests

  /** One item of the pull request listing. A missing key is None (or Absent
      where the source tolerates null); the nested `user`, `head` and `base`
      objects may also be JSON null. */
  datatype PrItem = PrItem(number: Option<int>, title: Option<string>, body: Field<string>, state: Option<string>,
                           createdAt: Option<string>, updatedAt: Option<string>,
                           closedAt: Field<string>, mergedAt: Field<string>,
                           user: Field<UserItem>, head: Field<RefItem>, base: Field<RefItem>,
                           htmlUrl: Option<string>, diffUrl: Option<string>, patchUrl: Field<string>)

  datatype UserItem = UserItem(login: Option<string>, avatarUrl: Option<string>)

  datatype RefItem = RefItem(refName: Option<string>, sha: Option<string>)

  datatype PrRecord = PrRecord(number: int, title: string, body: string, state: string,
                               createdAt: string, updatedAt: string, closedAt: Option<string>, mergedAt: Option<string>,
                               userLogin: string, avatarUrl: string, headRef: string, headSha: string,
                               baseRef: string, baseSha: string, url: string, diffUrl: string,
                               patchUrl: Option<string>, codeDiff: string)

  /** The patch request: any exception, or the HTTP status and the body text. */
  datatype PatchReply = PatchFailed | PatchResponse(status: int, text: string)

  function NullToOption(f: Field<string>): Option<string> {
    match f
    case Present(v) => Some(v)
    case _ => None
  }

  /** code_diff: the patch text only when patch_url is truthy and the request returned 200. */
  function PrCodeDiff(patchUrl: Option<string>, patchApi: string -> PatchReply): (r: string)
    ensures r != "" ==> patchUrl.Some? && patchUrl.value != ""
                        && patchApi(patchUrl.value) == PatchResponse(200, r)
  {
    if patchUrl.None? || patchUrl.value == "" then ""
    else match patchApi(patchUrl.value)
      case PatchResponse(status, text) => if status == 200 then text else ""
      case PatchFailed => ""
  }

  /** The exception reading login and avatar_url of the user object raises, if any. */
  function UserFault(u: Field<UserItem>): (r: Option<Exception>)
    ensures r.None? <==> u.Present? && u.value.login.Some? && u.value.avatarUrl.Some?
    ensures r == Some(NoneSubscript) <==> u.Null?
  {
    if ObjectFault(u, "user").Some? then ObjectFault(u, "user")
    else if u.value.login.None? then Some(KeyError("login"))
    else if u.value.avatarUrl.None? then Some(KeyError("avatar_url"))
    else None
  }

  /** The exception reading ref and sha of a head or base object raises, if any. */
  function RefFault(f: Field<RefItem>, key: string): (r: Option<Exception>)
    ensures r.None? <==> f.Present? && f.value.refName.Some? && f.value.sha.Some?
    ensures r == Some(NoneSubscript) <==> f.Null?
  {
    if ObjectFault(f, key).Some? then ObjectFault(f, key)
    else if f.value.refName.None? then Some(KeyError("ref"))
    else if f.value.sha.None? then Some(KeyError("sha"))
    else None
  }

  /** Every key pr_data reads before `user` is there (null allowed where the
      source allows it). */
  predicate PrScalarsPresent(item: PrItem) {
    item.number.Some? && item.title.Some? && !item.body.Absent? && item.state.Some?
    && item.createdAt.Some? && item.updatedAt.Some? && !item.closedAt.Absent? && !item.mergedAt.Absent?
  }

  /** The exception building pr_data raises, reading the keys in the source's
      order: KeyError for the first absent key, TypeError for a null `user`,
      `head` or `base` reached before it. */
  function PrFault(item: PrItem): (r: Option<Exception>)
    ensures r.None? <==> (PrScalarsPresent(item) && UserFault(item.user).None?
                          && RefFault(item.head, "head").None? && RefFault(item.base, "base").None?
                          && item.htmlUrl.Some? && item.diffUrl.Some? && !item.patchUrl.Absent?)
    ensures r == Some(NoneSubscript) <==>
              PrScalarsPresent(item)
              && (item.user.Null?
                  || (UserFault(item.user).None?
                      && (item.head.Null? || (RefFault(item.head, "head").None? && item.base.Null?))))
  {
    if item.number.None? then Some(KeyError("number"))
    else if item.title.None? then Some(KeyError("title"))
    else if item.body.Absent? then Some(KeyError("body"))
    else if item.state.None? then Some(KeyError("state"))
    else if item.createdAt.None? then Some(KeyError("created_at"))
    else if item.updatedAt.None? then Some(KeyError("updated_at"))
    else if item.closedAt.Absent? then Some(KeyError("closed_at"))
    else if item.mergedAt.Absent? then Some(KeyError("merged_at"))
    else if UserFault(item.user).Some? then UserFault(item.user)
    else if RefFault(item.head, "head").Some? then RefFault(item.head, "head")
    else if RefFault(item.base, "base").Some? then RefFault(item.base, "base")
    else if item.htmlUrl.None? then Some(KeyError("html_url"))
    else if item.diffUrl.None? then Some(KeyError("diff_url"))
    else if item.patchUrl.Absent? then Some(KeyError("patch_url"))
    else None
  }

  /** The record of one listed pull request: a missing key is an uncaught
      KeyError, a null `user`, `head` or `base` an uncaught TypeError; a null
      body becomes ''. */
  function PrOf(item: PrItem, patchApi: string -> PatchReply): Result<PrRecord, Exception> {
    var fault := PrFault(item);
    if fault.Some? then Err(fault.value)
    else
      var patchUrl := NullToOption(item.patchUrl);
      Ok(PrRecord(item.number.value, item.title.value, NullToOption(item.body).GetOr(""), item.state.value,
                  item.createdAt.value, item.updatedAt.value,
                  NullToOption(item.closedAt), NullToOption(item.mergedAt),
                  item.user.value.login.value, item.user.value.avatarUrl.value,
                  item.head.value.refName.value, item.head.value.sha.value,
                  item.base.value.refName.value, item.base.value.sha.value, item.htmlUrl.value, item.diffUrl.value,
                  patchUrl, PrCodeDiff(patchUrl, patchApi)))
  }

  /** A null body is stored as '', and code_diff is '' unless patch_url is
      truthy and its request returned 200. */
  lemma PrOfFields(item: PrItem, patchApi: string -> PatchReply)
    requires PrOf(item, patchApi).Ok?
    ensures item.body.Null? ==> PrOf(item, patchApi).value.body == ""
    ensures item.body.Present? ==> PrOf(item, patchApi).value.body == item.body.value
    ensures PrOf(item, patchApi).value.codeDiff != "" ==>
              item.patchUrl.Present? && item.patchUrl.value != ""
              && patchApi(item.patchUrl.value) == PatchResponse(200, PrOf(item, patchApi).value.codeDiff)
  {
  }

  /** The body of the pull request loop for one item: pr_data is built with
      every listed key, then code_diff is set from the patch request. */
  method PrRecordOf(item: PrItem, patchApi: string -> PatchReply) returns (r: Result<PrRecord, Exception>)
    ensures r == PrOf(item, patchApi)
    ensures r.Err? <==> PrFault(item).Some?
    ensures r.Ok? ==> r.value.body == (if item.body.Present? then item.body.value else "")
    ensures r.Ok? ==>
              r.value.codeDiff
              == (if item.patchUrl.Present? && item.patchUrl.value != ""
                     && patchApi(item.patchUrl.value).PatchResponse? && patchApi(item.patchUrl.value).status == 200
                  then patchApi(item.patchUrl.value).text else "")
  {
    var fault := PrFault(item);
    if fault.Some? {
      return Err(fault.value);
    }
    var patchUrl := NullToOption(item.patchUrl);
    var pr := PrRecord(item.number.value, item.title.value, NullToOption(item.body).GetOr(""), item.state.value,
                       item.createdAt.value, item.updatedAt.value,
                       NullToOption(item.closedAt), NullToOption(item.mergedAt),
                       item.user.value.login.value, item.user.value.avatarUrl.value,
                       item.head.value.refName.value, item.head.value.sha.value,
                       item.base.value.refName.value, item.base.value.sha.value, item.htmlUrl.value, item.diffUrl.value,
                       patchUrl, "");
    if patchUrl.Some? && patchUrl.value != "" {
      var reply := patchApi(patchUrl.value);
      if reply.PatchResponse? && reply.status == 200 {
        pr := pr.(codeDiff := reply.text);
      } else {
        pr := pr.(codeDiff := "");
      }
    } else {
      pr := pr.(codeDiff := "");
    }
    r := Ok(pr);
  }

  /** fetch_pull_requests: the paging loop over the pull request listing. */
  method FetchPullRequests(info: RepoInfo, cap: nat, perPage: nat, api: (string, nat, nat) -> PageReply<PrItem>,
                           patchApi: string -> PatchReply) returns (r: Result<seq<PrRecord>, Exception>)
    requires perPage > 0
    ensures r == Paged(cap, perPage, Listing(api, PullsUrl(info)), (p: PrItem) => PrOf(p, patchApi), [], 1)
  {
    var url := PullsUrl(info);
    ghost var listing := Listing(api, url);
    ghost var convert := (p: PrItem) => PrOf(p, patchApi);
    var prs: seq<PrRecord> := [];
    var page: nat := 1;
    while |prs| < cap
      invariant Paged(cap, perPage, listing, convert, prs, page) == Paged(cap, perPage, listing, convert, [], 1)
      decreases cap - |prs|
    {
      var reply := api(url, page, Min(perPage, cap - |prs|));
      assert listing(page, Min(perPage, cap - |prs|)) == reply;
      if reply.RequestFailed? || reply.items == [] {
        return Ok(prs);
      }
      var items := reply.items;
      ghost var before := prs;
      for i := 0 to |items|
        invariant ConvertAll(items[..i], convert).Ok? && prs == before + ConvertAll(items[..i], convert).value
      {
        assert items[..i + 1][..i] == items[..i];
        var p := PrRecordOf(items[i], patchApi);
        if p.Err? {
          ConvertAllErrSticks(items, convert, i + 1);
          return Err(p.error);
        }
        prs := prs + [p.value];
      }
      assert items[..|items|] == items;
      PagedStep(cap, perPage, listing, convert, before, page, items, ConvertAll(items, convert).value);
      page := page + 1;
      if |items| < perPage {
        return Ok(prs);
      }
    }
    return Ok(prs);
  }

  // ------------------------------------------------------------------ process_repository

  datatype Config = Config(maxCommits: nat, commitsPerPage: nat, maxPrs: nat, prsPerPage: nat)

  /** The GitHub API as seen by the processor: the listings take the endpoint
      URL, the page number and per_page. */
  datatype GitHub = GitHub(commitsApi: (string, nat, nat) -> PageReply<CommitItem>, detailApi: string -> DetailReply,
                           pullsApi: (string, nat, nat) -> PageReply<PrItem>, patchApi: string -> PatchReply)

  /** What process_repository writes (the two lists) and returns (paths and counts). */
  datatype Saved = Saved(commits: seq<CommitRecord>, prs: seq<PrRecord>, commitsPath: string, prsPath: string,
                         commitsCount: nat, prsCount: nat)

  /** process_repository: parse the URL, fetch the commits, then the pull
      requests; any exception propagates. */
  method ProcessRepository(url: string, outputDir: string, cfg: Config, gh: GitHub)
    returns (r: Result<Saved, Exception>)
    requires cfg.commitsPerPage > 0 && cfg.prsPerPage > 0
    ensures ExtractRepoInfo(url).Err? ==> r == Err(ExtractRepoInfo(url).error)
    ensures r.Ok? ==> ExtractRepoInfo(url).Ok? && var info := ExtractRepoInfo(url).value; var s := r.value;
      s.commitsCount == |s.commits| && s.prsCount == |s.prs|
      && Paged(cfg.maxCommits, cfg.commitsPerPage, Listing(gh.commitsApi, CommitsUrl(info)),
               (c: CommitItem) => CommitOf(c, gh.detailApi), [], 1)
         == Ok(s.commits)
      && Paged(cfg.maxPrs, cfg.prsPerPage, Listing(gh.pullsApi, PullsUrl(info)),
               (p: PrItem) => PrOf(p, gh.patchApi), [], 1)
         == Ok(s.prs)
      && s.commitsPath == JoinPath(outputDir, "commits.json") && s.prsPath == JoinPath(outputDir, "prs.json")
  {
    var info := ExtractRepoInfo(url);
    if info.Err? {
      return Err(info.error);
    }
    var commits := FetchCommits(info.value, cfg.maxCommits, cfg.commitsPerPage, gh.commitsApi, gh.detailApi);
    if commits.Err? {
      return Err(commits.error);
    }
    var prs := FetchPullRequests(info.value, cfg.maxPrs, cfg.prsPerPage, gh.pullsApi, gh.patchApi);
    if prs.Err? {
      return Err(prs.error);
    }
    r := Ok(Saved(commits.value, prs.value, JoinPath(outputDir, "commits.json"), JoinPath(outputDir, "prs.json"),
                  |commits.value|, |prs.value|));
  }

  /** The code as written lists the commits of another repository for a
      repository whose name holds ".git": git@github.com:o/.gitx is fetched
      from .../repos/o/x/commits instead of .../repos/o/.gitx/commits. */
  lemma AsWrittenListsOtherRepository()
    ensures ExtractRepoInfoAsWritten(SshPrefix + "o/.gitx").Ok? && ExtractRepoInfo(SshPrefix + "o/.gitx").Ok?
    ensures CommitsUrl(ExtractRepoInfoAsWritten(SshPrefix + "o/.gitx").value) == ApiPrefix + "o/x/commits"
    ensures CommitsUrl(ExtractRepoInfo(SshPrefix + "o/.gitx").value) == ApiPrefix + "o/.gitx/commits"
  {
    AsWrittenDropsInnerGit();
    CorrectedKeepsInnerGit();
    assert ApiPrefix + "o" + "/" + "x" + "/commits" == ApiPrefix + "o/x/commits";
    assert ApiPrefix + "o" + "/" + ".gitx" + "/commits" == ApiPrefix + "o/.gitx/commits";
  }
}
