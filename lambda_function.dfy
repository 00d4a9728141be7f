/** The AWS Lambda behind the web front end: it parses a GitHub URL, pulls
    the repository's metadata, latest commits and pull requests from the
    GitHub REST API, keeps the result in an in-memory cache keyed by URL, and
    answers questions about a cached repository through a language model.

    GitHub requests, Bedrock calls and JSON decoding are boundaries: each is
    a function parameter whose result is what the source receives (None for a
    request that failed or returned something falsy). */
module BedrockLambda {
  import opened Common

  const MaxCommits: nat := 50
  const MaxPrs: nat := 30
  /** create_embedding sends at most this many characters. */
  const EmbeddingInputLimit: nat := 8000
  /** build_context lists at most this many commits and pull requests ... */
  const ContextItems: nat := 10
  /** ... and cuts each message or title to this many characters. */
  const ContextTextLimit: nat := 100

  const GithubPrefix: string := "https://github.com/"
  const ApiPrefix: string := "https://api.github.com/repos/"
  const UnsupportedUrl: string := "Unsupported repository URL format: "
  const InvalidUrl: string := "Invalid repository URL format: "
  const CommitsQuery: string := "/commits?per_page="
  const PullsQuery: string := "/pulls?state=all&per_page="
  const UrlRequired: string := "repo_url required"
  const ProcessedMessage: string := "Repository processed successfully"
  const IndexOutOfRange: string := "list index out of range"

  // ------------------------------------------------------------------ extract_repo_info

  datatype RepoInfo = RepoInfo(owner: string, repo: string, fullName: string, apiUrl: string)

  function ValueError(message: string): Exception {
    Exception(message, "ValueError")
  }

  /** extract_repo_info: only https://github.com/ URLs; the prefix is removed
      wherever it occurs, trailing '/' are dropped, and the first two segments
      are the owner and the repository; further segments are ignored. */
  function ExtractRepoInfo(url: string): (r: Result<RepoInfo, Exception>)
    ensures !StartsWith(url, GithubPrefix) ==>
              r == Err(ValueError(UnsupportedUrl + url))
    ensures r.Err? ==> r.error.typeName == "ValueError"
    ensures r.Ok? ==> StartsWith(url, GithubPrefix)
                      && r.value.fullName == r.value.owner + "/" + r.value.repo
                      && r.value.apiUrl == ApiPrefix + r.value.owner + "/" + r.value.repo
  {
    if !StartsWith(url, GithubPrefix) then Err(ValueError(UnsupportedUrl + url))
    else
      var parts := Split(RStripChar(Replace(url, GithubPrefix, ""), '/'), '/');
      if |parts| < 2 then Err(ValueError(InvalidUrl + url))
      else Ok(RepoInfo(parts[0], parts[1], parts[0] + "/" + parts[1], ApiPrefix + parts[0] + "/" + parts[1]))
  }

  /** No two consecutive slashes. */
  predicate NoDoubleSlash(s: string) {
    forall k :: 0 <= k < |s| - 1 ==> !(s[k] == '/' && s[k + 1] == '/')
  }

  lemma {:induction false} NoDoubleSlashNoPrefix(s: string)
    requires NoDoubleSlash(s)
    ensures !Contains(s, GithubPrefix)
    decreases |s|
  {
    if |s| >= |GithubPrefix| {
      assert s[..|GithubPrefix|][6] == s[6] && s[..|GithubPrefix|][7] == s[7];
      assert GithubPrefix[6] == '/' && GithubPrefix[7] == '/';
    }
    if s != [] {
      assert NoDoubleSlash(s[1..]) by {
        forall k | 0 <= k < |s[1..]| - 1
          ensures !(s[1..][k] == '/' && s[1..][k + 1] == '/')
        {
          assert s[1..][k] == s[k + 1] && s[1..][k + 1] == s[k + 2];
        }
      }
      NoDoubleSlashNoPrefix(s[1..]);
    }
  }

  /** Stripping a trailing character only looks at the end of the string. */
  lemma {:induction false} RStripCharAppend(a: string, b: string, c: char)
    requires a != [] && a[|a| - 1] != c
    ensures RStripChar(b, c) != [] ==> RStripChar(a + b, c) == a + RStripChar(b, c)
    ensures RStripChar(b, c) == [] ==> RStripChar(a + b, c) == a
    decreases |b|
  {
    if b == [] {
      assert a + b == a;
    } else if b[|b| - 1] == c {
      assert (a + b)[..|a + b| - 1] == a + b[..|b| - 1];
      RStripCharAppend(a, b[..|b| - 1], c);
    }
  }

  lemma NoDoubleSlashSegments(owner: string, repo: string, tail: string)
    requires '/' !in owner && '/' !in repo && repo != []
    requires tail == [] || (tail[0] == '/' && NoDoubleSlash(tail))
    ensures NoDoubleSlash(owner + "/" + repo + tail)
  {
    var x := owner + "/" + repo + tail;
    forall k | 0 <= k < |x| - 1
      ensures !(x[k] == '/' && x[k + 1] == '/')
    {
      if k < |owner| {
        assert x[k] == owner[k];
      } else if k == |owner| {
        assert x[k + 1] == repo[0];
      } else if k <= |owner| + |repo| {
        assert x[k] == repo[k - |owner| - 1];
      } else {
        assert x[k] == tail[k - |owner| - 1 - |repo|];
        assert x[k + 1] == tail[k + 1 - |owner| - 1 - |repo|];
      }
    }
  }

  /** With no double slash after it, the prefix occurs only once and replace removes just that one. */
  lemma ReplaceLeadingPrefix(x: string)
    requires NoDoubleSlash(x)
    ensures Replace(GithubPrefix + x, GithubPrefix, "") == x
  {
    var url := GithubPrefix + x;
    NoDoubleSlashNoPrefix(x);
    assert StartsWith(url, GithubPrefix);
    assert url[|GithubPrefix|..] == x;
    ReplaceAbsent(x, GithubPrefix, "");
  }

  lemma SegmentsSplit(owner: string, repo: string, tail: string)
    requires '/' !in owner && '/' !in repo && repo != []
    requires tail == [] || tail[0] == '/'
    ensures var parts := Split(RStripChar(owner + "/" + repo + tail, '/'), '/');
      |parts| >= 2 && parts[0] == owner && parts[1] == repo
  {
    var p := owner + "/" + repo;
    assert owner + "/" + repo + tail == p + tail;
    assert p[|p| - 1] == repo[|repo| - 1];
    RStripCharAppend(p, tail, '/');
    var t := RStripChar(tail, '/');
    if t == [] {
      assert RStripChar(p + tail, '/') == p;
      assert p == owner + ['/'] + repo;
      SplitAt(owner, repo, '/');
      SplitNoSep(repo, '/');
    } else {
      assert t[0] == '/' by {
        assert t == tail[..|t|];
      }
      assert RStripChar(p + tail, '/') == owner + ['/'] + (repo + ['/'] + t[1..]);
      SplitAt(owner, repo + ['/'] + t[1..], '/');
      SplitAt(repo, t[1..], '/');
    }
  }

  /** The URL the source is built for: the owner and repository are its first
      two segments, whatever follows them. */
  lemma ExtractRepoInfoSegments(owner: string, repo: string, tail: string)
    requires '/' !in owner && '/' !in repo && repo != []
    requires tail == [] || (tail[0] == '/' && NoDoubleSlash(tail))
    ensures ExtractRepoInfo(GithubPrefix + owner + "/" + repo + tail)
            == Ok(RepoInfo(owner, repo, owner + "/" + repo, ApiPrefix + owner + "/" + repo))
  {
    var x := owner + "/" + repo + tail;
    assert GithubPrefix + owner + "/" + repo + tail == GithubPrefix + x;
    NoDoubleSlashSegments(owner, repo, tail);
    ReplaceLeadingPrefix(x);
    SegmentsSplit(owner, repo, tail);
  }

  /** A URL with a single path segment (optionally followed by one '/') names
      no repository: the second ValueError, "Invalid repository URL format". */
  lemma ExtractRepoInfoOneSegment(owner: string, trailing: bool)
    requires '/' !in owner
    ensures var url := GithubPrefix + owner + (if trailing then "/" else "");
      ExtractRepoInfo(url) == Err(ValueError(InvalidUrl + url))
  {
    var x := owner + (if trailing then "/" else "");
    assert GithubPrefix + owner + (if trailing then "/" else "") == GithubPrefix + x;
    assert NoDoubleSlash(x) by {
      forall k | 0 <= k < |x| - 1
        ensures !(x[k] == '/' && x[k + 1] == '/')
      {
        assert x[k] == owner[k];
      }
    }
    ReplaceLeadingPrefix(x);
    if trailing {
      assert x[..|x| - 1] == owner;
    }
    assert RStripChar(owner, '/') == owner;
    SplitNoSep(owner, '/');
  }

  // ------------------------------------------------------------------ create_embedding

  /** create_embedding: the first 8000 characters go to the embedding model;
      a failed call (None) gives the empty vector. */
  function CreateEmbedding(text: string, embed: string -> Option<seq<real>>): (r: seq<real>)
    ensures embed(Take(text, EmbeddingInputLimit)).None? ==> r == []
    ensures embed(Take(text, EmbeddingInputLimit)).Some? ==> r == embed(Take(text, EmbeddingInputLimit)).value
  {
    embed(Take(text, EmbeddingInputLimit)).GetOr([])
  }

  /** Only a prefix of at most 8000 characters of the text reaches the model. */
  lemma EmbeddingInputBounded(text: string)
    ensures |Take(text, EmbeddingInputLimit)| <= EmbeddingInputLimit
    ensures StartsWith(text, Take(text, EmbeddingInputLimit))
    ensures |text| <= EmbeddingInputLimit ==> Take(text, EmbeddingInputLimit) == text
  {
  }

  // ------------------------------------------------------------------ fetch_commits / fetch_pull_requests

  /** One item of the commits listing. A missing key is None (or Absent);
      the nested `commit` and `commit.author` objects may also be JSON null. */
  datatype CommitItem = CommitItem(sha: Option<string>, commit: Field<CommitBody>, htmlUrl: Option<string>)

  datatype CommitBody = CommitBody(message: Option<string>, author: Field<Signature>)

  datatype Signature = Signature(name: Option<string>, date: Option<string>)

  datatype CommitRecord = CommitRecord(sha: string, message: string, author: string, date: string, url: string)

  /** One item of the pull request listing; the nested `user` object may be null. */
  datatype PrItem = PrItem(number: Option<int>, title: Option<string>, state: Option<string>,
                           user: Field<User>, createdAt: Option<string>, htmlUrl: Option<string>)

  datatype User = User(login: Option<string>)

  datatype PrRecord = PrRecord(number: int, title: string, state: string, user: string, createdAt: string, url: string)

  /** The record of one commit item, reading its keys in the source's order:
      Ok(None) where a KeyError skips the item, Err where a null object is
      indexed (the TypeError the loop does not catch). */
  function ToCommit(item: CommitItem): (r: Result<Option<CommitRecord>, Exception>)
    ensures r.Err? <==>
              item.sha.Some?
              && (item.commit.Null?
                  || (item.commit.Present? && item.commit.value.message.Some? && item.commit.value.author.Null?))
    ensures r.Err? ==> r.error == NoneSubscript
    ensures r.Ok? && r.value.Some? <==>
              item.sha.Some? && item.commit.Present? && item.commit.value.message.Some?
              && item.commit.value.author.Present? && item.commit.value.author.value.name.Some?
              && item.commit.value.author.value.date.Some? && item.htmlUrl.Some?
    ensures r.Ok? && r.value.Some? ==>
              var c := item.commit.value;
              r.value.value == CommitRecord(item.sha.value, c.message.value, c.author.value.name.value,
                                            c.author.value.date.value, item.htmlUrl.value)
  {
    if item.sha.None? then Ok(None)
    else match item.commit
      case Absent => Ok(None)
      case Null => Err(NoneSubscript)
      case Present(c) =>
        if c.message.None? then Ok(None)
        else match c.author
          case Absent => Ok(None)
          case Null => Err(NoneSubscript)
          case Present(a) =>
            if a.name.None? || a.date.None? || item.htmlUrl.None? then Ok(None)
            else Ok(Some(CommitRecord(item.sha.value, c.message.value, a.name.value, a.date.value,
                                      item.htmlUrl.value)))
  }

  /** The record of one pull request item, in the same way; a null `user` raises. */
  function ToPr(item: PrItem): (r: Result<Option<PrRecord>, Exception>)
    ensures r.Err? <==> item.number.Some? && item.title.Some? && item.state.Some? && item.user.Null?
    ensures r.Err? ==> r.error == NoneSubscript
    ensures r.Ok? && r.value.Some? <==>
              item.number.Some? && item.title.Some? && item.state.Some? && item.user.Present?
              && item.user.value.login.Some? && item.createdAt.Some? && item.htmlUrl.Some?
    ensures r.Ok? && r.value.Some? ==>
              r.value.value == PrRecord(item.number.value, item.title.value, item.state.value,
                                        item.user.value.login.value, item.createdAt.value, item.htmlUrl.value)
  {
    if item.number.None? || item.title.None? || item.state.None? then Ok(None)
    else match item.user
      case Absent => Ok(None)
      case Null => Err(NoneSubscript)
      case Present(u) =>
        if u.login.None? || item.createdAt.None? || item.htmlUrl.None? then Ok(None)
        else Ok(Some(PrRecord(item.number.value, item.title.value, item.state.value, u.login.value,
                              item.createdAt.value, item.htmlUrl.value)))
  }

  /** The fetch loops: items in order, a skipped item adds nothing, and the
      first item that raises ends the loop with its exception. */
  function Collect<A, B>(items: seq<A>, convert: A -> Result<Option<B>, Exception>): (r: Result<seq<B>, Exception>)
    ensures r.Ok? ==> |r.value| <= |items|
  {
    if items == [] then Ok([])
    else
      match Collect(items[..|items| - 1], convert)
      case Err(e) => Err(e)
      case Ok(records) =>
        match convert(items[|items| - 1])
        case Err(e) => Err(e)
        case Ok(None) => Ok(records)
        case Ok(Some(x)) => Ok(records + [x])
  }

  /** The loop fails exactly when some item raises, and then with the
      exception of the first such item. */
  lemma {:induction false} CollectFails<A, B>(items: seq<A>, convert: A -> Result<Option<B>, Exception>)
    ensures Collect(items, convert).Err? <==> exists k :: 0 <= k < |items| && convert(items[k]).Err?
    ensures Collect(items, convert).Err? ==>
              exists k :: 0 <= k < |items| && convert(items[k]) == Err(Collect(items, convert).error)
                          && forall j :: 0 <= j < k ==> convert(items[j]).Ok?
    decreases |items|
  {
    if items != [] {
      var n := |items| - 1;
      var init := items[..n];
      CollectFails(init, convert);
      assert forall j :: 0 <= j < n ==> init[j] == items[j];
      if Collect(init, convert).Err? {
        var k :| 0 <= k < n && convert(init[k]) == Err(Collect(init, convert).error)
                 && forall j :: 0 <= j < k ==> convert(init[j]).Ok?;
        assert convert(items[k]) == Err(Collect(items, convert).error);
      } else if convert(items[n]).Err? {
        assert forall j :: 0 <= j < n ==> convert(items[j]).Ok?;
      } else {
        forall k | 0 <= k < |items|
          ensures convert(items[k]).Ok?
        {
          if k < n {
            assert items[k] == init[k];
          }
        }
      }
    }
  }

  /** Once the loop has failed on a prefix, the later items do not matter. */
  lemma {:induction false} CollectErrAfter<A, B>(items: seq<A>, convert: A -> Result<Option<B>, Exception>, i: nat)
    requires i <= |items| && Collect(items[..i], convert).Err?
    ensures Collect(items, convert) == Collect(items[..i], convert)
    decreases |items| - i
  {
    if i < |items| {
      assert items[..i + 1][..i] == items[..i];
      CollectErrAfter(items, convert, i + 1);
    } else {
      assert items[..i] == items;
    }
  }

  /** When no item raises or is skipped, every item gives one record, in order. */
  lemma {:induction false} CollectAll<A, B>(items: seq<A>, convert: A -> Result<Option<B>, Exception>)
    requires forall k :: 0 <= k < |items| ==> convert(items[k]).Ok? && convert(items[k]).value.Some?
    ensures Collect(items, convert).Ok?
    ensures |Collect(items, convert).value| == |items|
    ensures forall k :: 0 <= k < |items| ==> Collect(items, convert).value[k] == convert(items[k]).value.value
    decreases |items|
  {
    if items != [] {
      var init := items[..|items| - 1];
      assert forall k :: 0 <= k < |init| ==> init[k] == items[k];
      CollectAll(init, convert);
    }
  }

  /** Every record comes from an item, and the records keep the items' order. */
  lemma {:induction false} CollectFrom<A, B>(items: seq<A>, convert: A -> Result<Option<B>, Exception>, k: nat)
    requires Collect(items, convert).Ok? && k < |Collect(items, convert).value|
    ensures exists j :: 0 <= j < |items| && convert(items[j]) == Ok(Some(Collect(items, convert).value[k]))
    decreases |items|
  {
    var n := |items| - 1;
    var init := items[..n];
    var records := Collect(init, convert).value;
    if k < |records| {
      CollectFrom(init, convert, k);
      var j :| 0 <= j < |init| && convert(init[j]) == Ok(Some(records[k]));
      assert items[j] == init[j];
    } else {
      assert convert(items[n]) == Ok(Some(Collect(items, convert).value[k]));
    }
  }

  function CommitsUrl(info: RepoInfo): string {
    info.apiUrl + CommitsQuery + IntToString(MaxCommits) + "&page=1"
  }

  function PullsUrl(info: RepoInfo): string {
    info.apiUrl + PullsQuery + IntToString(MaxPrs) + "&page=1"
  }

  /** The commit records a listing yields from its first 50 items. */
  function CommitRecords(data: Option<seq<CommitItem>>): Result<seq<CommitRecord>, Exception> {
    match data
    case None => Ok([])
    case Some(items) => Collect(Take(items, MaxCommits), ToCommit)
  }

  function PrRecords(data: Option<seq<PrItem>>): Result<seq<PrRecord>, Exception> {
    match data
    case None => Ok([])
    case Some(items) => Collect(Take(items, MaxPrs), ToPr)
  }

  /** fetch_commits: one request for the first page; [] on a falsy response;
      a null nested object raises out of the loop. */
  method FetchCommits(info: RepoInfo, api: string -> Option<seq<CommitItem>>)
    returns (r: Result<seq<CommitRecord>, Exception>)
    ensures r == CommitRecords(api(CommitsUrl(info)))
  {
    var data := api(CommitsUrl(info));
    if data.None? || data.value == [] {
      return Ok([]);
    }
    var items := Take(data.value, MaxCommits);
    var commits := [];
    for i := 0 to |items|
      invariant Collect(items[..i], ToCommit) == Ok(commits)
    {
      assert items[..i + 1][..i] == items[..i];
      var c := ToCommit(items[i]);
      if c.Err? {
        CollectErrAfter(items, ToCommit, i + 1);
        return Err(c.error);
      }
      if c.value.Some? {
        commits := commits + [c.value.value];
      }
    }
    assert items[..|items|] == items;
    r := Ok(commits);
  }

  /** fetch_pull_requests: one request for the first page of all states; [] on
      a falsy response; a null `user` raises out of the loop. */
  method FetchPullRequests(info: RepoInfo, api: string -> Option<seq<PrItem>>)
    returns (r: Result<seq<PrRecord>, Exception>)
    ensures r == PrRecords(api(PullsUrl(info)))
  {
    var data := api(PullsUrl(info));
    if data.None? || data.value == [] {
      return Ok([]);
    }
    var items := Take(data.value, MaxPrs);
    var prs := [];
    for i := 0 to |items|
      invariant Collect(items[..i], ToPr) == Ok(prs)
    {
      assert items[..i + 1][..i] == items[..i];
      var p := ToPr(items[i]);
      if p.Err? {
        CollectErrAfter(items, ToPr, i + 1);
        return Err(p.error);
      }
      if p.value.Some? {
        prs := prs + [p.value.value];
      }
    }
    assert items[..|items|] == items;
    r := Ok(prs);
  }

  /** At most 50 commit records; all of the first 50 items, in order, when
      every item is complete; a TypeError exactly when one of the first 50
      items has a null `commit` or `commit.author` where the source reads it. */
  lemma CommitRecordsBounds(data: Option<seq<CommitItem>>)
    ensures CommitRecords(data).Ok? ==> |CommitRecords(data).value| <= MaxCommits
    ensures CommitRecords(data).Err? <==>
              data.Some? && exists k :: 0 <= k < Min(|data.value|, MaxCommits) && ToCommit(data.value[k]).Err?
    ensures CommitRecords(data).Err? ==> CommitRecords(data).error == NoneSubscript
    ensures data.Some? && (forall k :: 0 <= k < |data.value| ==> ToCommit(data.value[k]).Ok? && ToCommit(data.value[k]).value.Some?) ==>
              CommitRecords(data).Ok? && |CommitRecords(data).value| == Min(|data.value|, MaxCommits)
  {
    if data.Some? {
      var items := Take(data.value, MaxCommits);
      assert forall k :: 0 <= k < |items| ==> items[k] == data.value[k];
      CollectFails(items, ToCommit);
      if forall k :: 0 <= k < |data.value| ==> ToCommit(data.value[k]).Ok? && ToCommit(data.value[k]).value.Some? {
        CollectAll(items, ToCommit);
      }
    }
  }

  /** At most 30 pull request records; all of the first 30 items when every
      item is complete; a TypeError exactly when one of them has a null `user`
      where the source reads it. */
  lemma PrRecordsBounds(data: Option<seq<PrItem>>)
    ensures PrRecords(data).Ok? ==> |PrRecords(data).value| <= MaxPrs
    ensures PrRecords(data).Err? <==>
              data.Some? && exists k :: 0 <= k < Min(|data.value|, MaxPrs) && ToPr(data.value[k]).Err?
    ensures PrRecords(data).Err? ==> PrRecords(data).error == NoneSubscript
    ensures data.Some? && (forall k :: 0 <= k < |data.value| ==> ToPr(data.value[k]).Ok? && ToPr(data.value[k]).value.Some?) ==>
              PrRecords(data).Ok? && |PrRecords(data).value| == Min(|data.value|, MaxPrs)
  {
    if data.Some? {
      var items := Take(data.value, MaxPrs);
      assert forall k :: 0 <= k < |items| ==> items[k] == data.value[k];
      CollectFails(items, ToPr);
      if forall k :: 0 <= k < |data.value| ==> ToPr(data.value[k]).Ok? && ToPr(data.value[k]).value.Some? {
        CollectAll(items, ToPr);
      }
    }
  }

  /** Each commit record comes from one of the first 50 items. */
  lemma CommitRecordFromItem(items: seq<CommitItem>, k: nat)
    requires CommitRecords(Some(items)).Ok? && k < |CommitRecords(Some(items)).value|
    ensures exists j :: 0 <= j < Min(|items|, MaxCommits) && ToCommit(items[j]) == Ok(Some(CommitRecords(Some(items)).value[k]))
  {
    var taken := Take(items, MaxCommits);
    CollectFrom(taken, ToCommit, k);
    var j :| 0 <= j < |taken| && ToCommit(taken[j]) == Ok(Some(Collect(taken, ToCommit).value[k]));
    assert taken[j] == items[j];
  }

  // ------------------------------------------------------------------ fetch_repo_info

  /** The repository object's fields the Lambda reads; a missing key is None. */
  datatype RepoItem = RepoItem(name: Option<string>, description: Option<string>, language: Option<string>,
                               stargazers: Option<int>, forks: Option<int>, openIssues: Option<int>)

  datatype RepoDetails = RepoDetails(name: string, description: string, language: string,
                                     stars: int, forks: int, openIssues: int)

  /** fetch_repo_info: None (the source's {}) on a falsy response, otherwise
      each field with '' or 0 for a missing key. */
  function FetchRepoInfo(info: RepoInfo, api: string -> Option<RepoItem>): (r: Option<RepoDetails>)
    ensures r.None? <==> api(info.apiUrl).None?
    ensures r.Some? ==> var d := api(info.apiUrl).value;
      (d.name.Some? ==> r.value.name == d.name.value) && (d.name.None? ==> r.value.name == "")
      && (d.description.Some? ==> r.value.description == d.description.value)
      && (d.description.None? ==> r.value.description == "")
      && (d.language.Some? ==> r.value.language == d.language.value) && (d.language.None? ==> r.value.language == "")
      && (d.stargazers.Some? ==> r.value.stars == d.stargazers.value) && (d.stargazers.None? ==> r.value.stars == 0)
      && (d.forks.Some? ==> r.value.forks == d.forks.value) && (d.forks.None? ==> r.value.forks == 0)
      && (d.openIssues.Some? ==> r.value.openIssues == d.openIssues.value) && (d.openIssues.None? ==> r.value.openIssues == 0)
  {
    match api(info.apiUrl)
    case None => None
    case Some(d) =>
      Some(RepoDetails(d.name.GetOr(""), d.description.GetOr(""), d.language.GetOr(""),
                       d.stargazers.GetOr(0), d.forks.GetOr(0), d.openIssues.GetOr(0)))
  }

  // ------------------------------------------------------------------ process_repository

  datatype Stats = Stats(commitsCount: nat, prsCount: nat, functionsCount: nat)

  /** What process_repository returns and the cache holds. */
  datatype Snapshot = Snapshot(repo: string, details: Option<RepoDetails>, commits: seq<CommitRecord>,
                               prs: seq<PrRecord>, stats: Stats)

  /** The GitHub endpoints the Lambda reads, as functions of the request URL. */
  datatype GitHub = GitHub(repoApi: string -> Option<RepoItem>,
                           commitsApi: string -> Option<seq<CommitItem>>,
                           pullsApi: string -> Option<seq<PrItem>>)

  /** process_repository as a value: the URL's ValueError, then the first
      TypeError of the commit loop, then that of the pull request loop. */
  function ProcessSpec(url: string, gh: GitHub): Result<Snapshot, Exception> {
    match ExtractRepoInfo(url)
    case Err(e) => Err(e)
    case Ok(info) =>
      match CommitRecords(gh.commitsApi(CommitsUrl(info)))
      case Err(e) => Err(e)
      case Ok(commits) =>
        match PrRecords(gh.pullsApi(PullsUrl(info)))
        case Err(e) => Err(e)
        case Ok(prs) =>
          Ok(Snapshot(info.fullName, FetchRepoInfo(info, gh.repoApi), commits, prs,
                      Stats(|commits|, |prs|, 0)))
  }

  /** process_repository: parse the URL (its ValueError propagates), then the
      details, commits and pull requests (a TypeError of either loop
      propagates); the counts are the list lengths and no functions are counted. */
  method ProcessRepository(url: string, gh: GitHub) returns (r: Result<Snapshot, Exception>)
    ensures r == ProcessSpec(url, gh)
    ensures r.Ok? ==> r.value.stats == Stats(|r.value.commits|, |r.value.prs|, 0)
                      && |r.value.commits| <= MaxCommits && |r.value.prs| <= MaxPrs
    ensures r.Err? <==> ExtractRepoInfo(url).Err?
                        || CommitRecords(gh.commitsApi(CommitsUrl(ExtractRepoInfo(url).value))).Err?
                        || PrRecords(gh.pullsApi(PullsUrl(ExtractRepoInfo(url).value))).Err?
    ensures ExtractRepoInfo(url).Ok? && r.Err? ==> r.error == NoneSubscript
  {
    var parsed := ExtractRepoInfo(url);
    if parsed.Err? {
      return Err(parsed.error);
    }
    var info := parsed.value;
    var details := FetchRepoInfo(info, gh.repoApi);
    CommitRecordsBounds(gh.commitsApi(CommitsUrl(info)));
    PrRecordsBounds(gh.pullsApi(PullsUrl(info)));
    var commits := FetchCommits(info, gh.commitsApi);
    if commits.Err? {
      return Err(commits.error);
    }
    var prs := FetchPullRequests(info, gh.pullsApi);
    if prs.Err? {
      return Err(prs.error);
    }
    r := Ok(Snapshot(info.fullName, details, commits.value, prs.value,
                     Stats(|commits.value|, |prs.value|, 0)));
  }

  // ------------------------------------------------------------------ build_context

  function CommitLine(c: CommitRecord): string {
    "- " + Take(c.message, ContextTextLimit) + " (by " + c.author + ")"
  }

  function PrLine(p: PrRecord): string {
    "- PR #" + IntToString(p.number) + ": " + Take(p.title, ContextTextLimit) + " (" + p.state + ")"
  }

  function CommitLines(commits: seq<CommitRecord>): (r: seq<string>)
    ensures |r| == |commits|
    ensures forall k :: 0 <= k < |r| ==> r[k] == CommitLine(commits[k])
  {
    seq(|commits|, k requires 0 <= k < |commits| => CommitLine(commits[k]))
  }

  function PrLines(prs: seq<PrRecord>): (r: seq<string>)
    ensures |r| == |prs|
    ensures forall k :: 0 <= k < |r| ==> r[k] == PrLine(prs[k])
  {
    seq(|prs|, k requires 0 <= k < |prs| => PrLine(prs[k]))
  }

  const CommitsHeader: string := "\nRecent Commits:\n"
  const PrsHeader: string := "\nRecent Pull Requests:\n"

  /** The repository block: present only with details; description and
      language lines only when non-empty. */
  function RepoBlock(s: Snapshot): seq<string> {
    match s.details
    case None => []
    case Some(d) =>
      ["Repository: " + s.repo]
      + (if d.description != "" then ["Description: " + d.description] else [])
      + (if d.language != "" then ["Primary Language: " + d.language] else [])
      + ["Stars: " + IntToString(d.stars) + ", Forks: " + IntToString(d.forks)]
  }

  function CommitSection(commits: seq<CommitRecord>): seq<string> {
    if commits == [] then [] else [CommitsHeader + Join(CommitLines(Take(commits, ContextItems)), "\n")]
  }

  function PrSection(prs: seq<PrRecord>): seq<string> {
    if prs == [] then [] else [PrsHeader + Join(PrLines(Take(prs, ContextItems)), "\n")]
  }

  function ContextParts(s: Snapshot): seq<string> {
    RepoBlock(s) + CommitSection(s.commits) + PrSection(s.prs)
  }

  /** build_context: the parts joined with a blank line. */
  function BuildContext(s: Snapshot): string {
    Join(ContextParts(s), "\n\n")
  }

  lemma JoinEmpty(parts: seq<string>, sep: string)
    requires sep != []
    ensures Join(parts, sep) == [] <==> (parts == [] || (|parts| == 1 && parts[0] == []))
  {
    if |parts| > 1 {
      assert |Join(parts, sep)| >= |sep|;
    }
  }

  /** The context is empty exactly when there are no details, no commits and no pull requests. */
  lemma BuildContextEmpty(s: Snapshot)
    ensures BuildContext(s) == "" <==> (s.details.None? && s.commits == [] && s.prs == [])
  {
    var parts := ContextParts(s);
    JoinEmpty(parts, "\n\n");
    if |parts| == 1 {
      assert s.details.None?;
      if s.commits != [] {
        assert parts[0][..|CommitsHeader|] == CommitsHeader;
      } else {
        assert parts[0][..|PrsHeader|] == PrsHeader;
      }
    }
  }

  /** The sections come in the order repository block, commits, pull requests,
      each one there exactly when its source is non-empty; the commit and pull
      request sections list the first ten items, each text cut to 100 characters. */
  lemma BuildContextLayout(s: Snapshot)
    ensures |RepoBlock(s)| == (if s.details.None? then 0
                               else 2 + (if s.details.value.description != "" then 1 else 0)
                                      + (if s.details.value.language != "" then 1 else 0))
    ensures ContextParts(s) == RepoBlock(s) + CommitSection(s.commits) + PrSection(s.prs)
    ensures |CommitSection(s.commits)| == (if s.commits == [] then 0 else 1)
    ensures |PrSection(s.prs)| == (if s.prs == [] then 0 else 1)
    ensures s.commits != [] ==> StartsWith(CommitSection(s.commits)[0], CommitsHeader)
    ensures s.prs != [] ==> StartsWith(PrSection(s.prs)[0], PrsHeader)
    ensures |CommitLines(Take(s.commits, ContextItems))| == Min(|s.commits|, ContextItems)
    ensures |PrLines(Take(s.prs, ContextItems))| == Min(|s.prs|, ContextItems)
    ensures forall k :: 0 <= k < Min(|s.commits|, ContextItems) ==>
              CommitLines(Take(s.commits, ContextItems))[k]
              == "- " + Take(s.commits[k].message, ContextTextLimit) + " (by " + s.commits[k].author + ")"
    ensures forall k :: 0 <= k < Min(|s.prs|, ContextItems) ==>
              |Take(s.prs[k].title, ContextTextLimit)| <= ContextTextLimit
  {
    if s.commits != [] {
      assert CommitSection(s.commits)[0][..|CommitsHeader|] == CommitsHeader;
    }
    if s.prs != [] {
      assert PrSection(s.prs)[0][..|PrsHeader|] == PrsHeader;
    }
  }

  // ------------------------------------------------------------------ lambda_handler

  /** The fields of a request body the handler reads; a missing key is None. */
  datatype Request = Request(action: Option<string>, repoUrl: Option<string>, text: Option<string>)

  /** The event's body is either a JSON string to decode or the event itself. */
  datatype Body = Encoded(json: string) | Direct(request: Request)

  datatype Event = Event(httpMethod: Option<string>, body: Body)

  datatype Payload =
    | Empty
    | ErrorText(error: string)
    | Processed(message: string, stats: Stats)
    | Answer(answer: string)
    | EmbeddingVector(embedding: seq<real>)
    | Failure(error: string, typeName: string)

  datatype Response = Response(statusCode: int, body: Payload)

  /** The CORS headers the source sends, unchanged, with every response; a
      `Response` leaves them implicit. */
  const Headers: map<string, string> := map[
    "Content-Type" := "application/json",
    "Access-Control-Allow-Origin" := "*",
    "Access-Control-Allow-Headers" := "Content-Type,X-Amz-Date,Authorization,X-Api-Key,X-Amz-Security-Token",
    "Access-Control-Allow-Methods" := "POST,OPTIONS"]

  /** The services the handler calls: JSON decoding of a string body, the
      embedding model, and the language model, which yields the text of each
      item of its reply's content list (None for an item without text). */
  datatype Services = Services(decode: string -> Result<Request, Exception>,
                               embed: string -> Option<seq<real>>,
                               llm: string -> Result<seq<Option<string>>, Exception>,
                               gh: GitHub)

  const CachedIntro: string := "You are analyzing the GitHub repository: "
  const ContextHeading: string := "\n\nRepository Context:\n"
  const UserQuestion: string := "\n\nUser Question: "
  const CachedOutro: string := "\n\nPlease provide a helpful answer based on the repository context above."
  const UncachedIntro: string := "The user is asking about a GitHub repository: "
  const Question: string := "\n\nQuestion: "
  const UncachedOutro: string := "\n\nPlease provide a helpful answer. Note: Detailed repository analysis may not be available yet."

  function AskPrompt(cached: Option<Snapshot>, repoUrl: string, text: string): string {
    match cached
    case Some(s) => CachedIntro + s.repo + ContextHeading + BuildContext(s) + UserQuestion + text + CachedOutro
    case None => UncachedIntro + repoUrl + Question + text + UncachedOutro
  }

  /** result['content'][0]['text'], with the exceptions Python raises. */
  function FirstText(content: seq<Option<string>>): Result<string, Exception> {
    if content == [] then Err(Exception(IndexOutOfRange, "IndexError"))
    else if content[0].None? then Err(Exception("'text'", "KeyError"))
    else Ok(content[0].value)
  }

  function Fail(e: Exception): Response {
    Response(500, Failure(e.message, e.typeName))
  }

  const InvalidAction: string := "Invalid action. Use 'process', 'ask', or 'embed'"

  /** The `process` action as a value: the response and the new cache. */
  function ProcessAction(cache: map<string, Snapshot>, repoUrl: Option<string>, gh: GitHub)
    : (Response, map<string, Snapshot>)
  {
    if repoUrl.None? || repoUrl.value == "" then (Response(400, ErrorText(UrlRequired)), cache)
    else
      match ProcessSpec(repoUrl.value, gh)
      case Err(e) => (Fail(e), cache)
      case Ok(s) =>
        (Response(200, Processed(ProcessedMessage, s.stats)), cache[repoUrl.value := s])
  }

  /** The `ask` action as a value: the cached snapshot, if any, shapes the prompt. */
  function AskAction(cache: map<string, Snapshot>, q: Request, svc: Services): Response {
    var text := q.text.GetOr("");
    var repoUrl := q.repoUrl.GetOr("");
    var cached := if repoUrl in cache then Some(cache[repoUrl]) else None;
    match svc.llm(AskPrompt(cached, repoUrl, text))
    case Err(e) => Fail(e)
    case Ok(content) =>
      match FirstText(content)
      case Err(e) => Fail(e)
      case Ok(answer) => Response(200, Answer(answer))
  }

  function DecodeBody(body: Body, svc: Services): Result<Request, Exception> {
    match body
    case Encoded(j) => svc.decode(j)
    case Direct(q) => Ok(q)
  }

  /** lambda_handler as a value: the response and the new cache. */
  function HandleSpec(cache: map<string, Snapshot>, event: Event, svc: Services): (Response, map<string, Snapshot>) {
    if event.httpMethod == Some("OPTIONS") then (Response(200, Empty), cache)
    else
      match DecodeBody(event.body, svc)
      case Err(e) => (Fail(e), cache)
      case Ok(q) =>
        if q.action == Some("process") then ProcessAction(cache, q.repoUrl, svc.gh)
        else if q.action == Some("ask") then (AskAction(cache, q, svc), cache)
        else if q.action == Some("embed") then
          (Response(200, EmbeddingVector(CreateEmbedding(q.text.GetOr(""), svc.embed))), cache)
        else (Response(400, ErrorText(InvalidAction)), cache)
  }

  /** The Lambda's module-level state: REPO_CACHE, repository URL to snapshot. */
  class Handler {
    var cache: map<string, Snapshot>

    constructor ()
      ensures cache == map[]
    {
      cache := map[];
    }

    /** lambda_handler: route on the HTTP method and the body's action; only a
        successful `process` changes the cache. */
    method Handle(event: Event, svc: Services) returns (response: Response)
      modifies this
      ensures (response, cache) == HandleSpec(old(cache), event, svc)
    {
      if event.httpMethod == Some("OPTIONS") {
        return Response(200, Empty);
      }
      var decoded := DecodeBody(event.body, svc);
      if decoded.Err? {
        return Fail(decoded.error);
      }
      var q := decoded.value;
      if q.action == Some("process") {
        if q.repoUrl.None? || q.repoUrl.value == "" {
          return Response(400, ErrorText(UrlRequired));
        }
        var result := ProcessRepository(q.repoUrl.value, svc.gh);
        if result.Err? {
          return Fail(result.error);
        }
        cache := cache[q.repoUrl.value := result.value];
        response := Response(200, Processed(ProcessedMessage, result.value.stats));
      } else if q.action == Some("ask") {
        response := AskAction(cache, q, svc);
      } else if q.action == Some("embed") {
        response := Response(200, EmbeddingVector(CreateEmbedding(q.text.GetOr(""), svc.embed)));
      } else {
        response := Response(400, ErrorText(InvalidAction));
      }
    }
  }

  /** OPTIONS is answered with 200 and an empty body, whatever else the event holds. */
  lemma OptionsIsOk(cache: map<string, Snapshot>, event: Event, svc: Services)
    requires event.httpMethod == Some("OPTIONS")
    ensures HandleSpec(cache, event, svc).0 == Response(200, Empty)
    ensures HandleSpec(cache, event, svc).1 == cache
  {
  }

  /** A status of 200, 400 or 500, and 500 exactly for a failure report. */
  predicate WellShaped(resp: Response) {
    resp.statusCode in {200, 400, 500}
    && (resp.statusCode == 500 <==> resp.body.Failure?)
  }

  lemma ProcessActionShape(cache: map<string, Snapshot>, repoUrl: Option<string>, gh: GitHub)
    ensures WellShaped(ProcessAction(cache, repoUrl, gh).0)
  {
  }

  lemma AskActionShape(cache: map<string, Snapshot>, q: Request, svc: Services)
    ensures WellShaped(AskAction(cache, q, svc))
  {
  }

  /** Every status is 200, 400 or 500; a 500 is exactly a failure
      report, and only a `process` call can change the cache. */
  lemma HandleShape(cache: map<string, Snapshot>, event: Event, svc: Services)
    ensures WellShaped(HandleSpec(cache, event, svc).0)
    ensures HandleSpec(cache, event, svc).1 != cache ==>
              DecodeBody(event.body, svc).Ok? && DecodeBody(event.body, svc).value.action == Some("process")
  {
    if event.httpMethod != Some("OPTIONS") && DecodeBody(event.body, svc).Ok? {
      var q := DecodeBody(event.body, svc).value;
      if q.action == Some("process") {
        ProcessActionShape(cache, q.repoUrl, svc.gh);
      } else if q.action == Some("ask") {
        AskActionShape(cache, q, svc);
      }
    }
  }

  /** 400 for `process` without a URL and for an unknown action; a URL the
      parser refuses is a 500 carrying its ValueError. */
  lemma HandleRejects(cache: map<string, Snapshot>, q: Request, svc: Services)
    ensures var (resp, cache') := HandleSpec(cache, Event(None, Direct(q)), svc);
      (q.action == Some("process") && (q.repoUrl.None? || q.repoUrl.value == "") ==>
         resp == Response(400, ErrorText(UrlRequired)) && cache' == cache)
      && (q.action !in {Some("process"), Some("ask"), Some("embed")} ==>
            resp == Response(400, ErrorText(InvalidAction)) && cache' == cache)
      && (q.action == Some("process") && q.repoUrl.Some? && q.repoUrl.value != ""
          && ExtractRepoInfo(q.repoUrl.value).Err? ==>
            resp == Response(500, Failure(ExtractRepoInfo(q.repoUrl.value).error.message, "ValueError"))
            && cache' == cache)
  {
  }

  /** A failed decode of a string body is a 500 carrying the decoder's exception. */
  lemma HandleDecodeFailure(cache: map<string, Snapshot>, httpMethod: Option<string>, j: string, svc: Services)
    requires httpMethod != Some("OPTIONS") && svc.decode(j).Err?
    ensures HandleSpec(cache, Event(httpMethod, Encoded(j)), svc)
            == (Response(500, Failure(svc.decode(j).error.message, svc.decode(j).error.typeName)), cache)
  {
  }

  /** A successful `process` stores its snapshot under the URL, replacing any
      earlier entry and leaving the others; the counts are the list lengths and
      functions_count is 0. */
  lemma ProcessUpdatesCache(cache: map<string, Snapshot>, url: string, svc: Services)
    requires url != "" && ProcessSpec(url, svc.gh).Ok?
    ensures var (resp, cache') := HandleSpec(cache, Event(None, Direct(Request(Some("process"), Some(url), None))), svc);
      resp.statusCode == 200 && url in cache'
      && cache'[url] == ProcessSpec(url, svc.gh).value
      && (forall u :: u in cache && u != url ==> u in cache' && cache'[u] == cache[u])
      && cache'.Keys == cache.Keys + {url}
      && resp.body.stats == Stats(|cache'[url].commits|, |cache'[url].prs|, 0)
  {
  }

  /** A parsable URL whose commit listing holds, among its first 50 items, a
      commit with a null author (read after its sha and message) makes
      `process` answer 500 with TypeError and leaves the cache alone. */
  lemma ProcessNullAuthor(cache: map<string, Snapshot>, url: string, svc: Services, k: nat)
    requires url != "" && ExtractRepoInfo(url).Ok?
    requires var data := svc.gh.commitsApi(CommitsUrl(ExtractRepoInfo(url).value));
      data.Some? && k < Min(|data.value|, MaxCommits)
      && data.value[k].sha.Some? && data.value[k].commit.Present?
      && data.value[k].commit.value.message.Some? && data.value[k].commit.value.author.Null?
    ensures ProcessSpec(url, svc.gh) == Err(NoneSubscript)
    ensures HandleSpec(cache, Event(None, Direct(Request(Some("process"), Some(url), None))), svc)
            == (Response(500, Failure(NoneSubscript.message, "TypeError")), cache)
  {
    CommitRecordsBounds(svc.gh.commitsApi(CommitsUrl(ExtractRepoInfo(url).value)));
  }

  /** `ask` reads the cache only: with a cached snapshot the prompt carries its context. */
  lemma AskUsesCache(cache: map<string, Snapshot>, url: string, text: string, svc: Services)
    requires url in cache
    ensures var (resp, cache') := HandleSpec(cache, Event(None, Direct(Request(Some("ask"), Some(url), Some(text)))), svc);
      var reply := svc.llm(AskPrompt(Some(cache[url]), url, text));
      cache' == cache
      && (reply.Ok? && reply.value != [] && reply.value[0].Some? ==>
            resp == Response(200, Answer(reply.value[0].value)))
      && (reply.Ok? && reply.value == [] ==> resp == Response(500, Failure(IndexOutOfRange, "IndexError")))
  {
  }
}
