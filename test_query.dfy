// The question-answering script over the two OpenSearch indexes
// (backend/test_query.py): a k-NN search over commits and PRs merged into
// one ranking, a prompt built from the hits, and the answer pulled out of
// the model's reply.
//
// The searches and the model call are parameters: each search reply is
// given (or the fact that it raised), and the model is a function from the
// prompt to its decoded JSON reply.

module QueryScript {
  import opened Common
  import opened Sorting
  import opened GitIngest

  // ------------------------------------------------------------------ search_all

  /** One k-NN hit: its score and its stored document. */
  datatype Scored<D> = Scored(score: real, source: D)

  /** What one search call did: raised, or replied with hits.hits (None when
    * either level of the reply lacks "hits"). */
  datatype Reply<D> = Raised | Answered(hits: Option<seq<Scored<D>>>)

  /** A labelled hit: ("commit", h) or ("pr", h). */
  datatype Labelled = CommitHit(score: real, commit: CommitDoc) | PrHit(score: real, pr: PrDoc)

  function HitsOf<D>(reply: Reply<D>): seq<Scored<D>>
    requires reply.Answered?
  {
    reply.hits.GetOr([])
  }

  function LabelCommits(hits: seq<Scored<CommitDoc>>): (r: seq<Labelled>)
    ensures |r| == |hits|
    ensures forall k :: 0 <= k < |r| ==> r[k] == CommitHit(hits[k].score, hits[k].source)
  {
    seq(|hits|, k requires 0 <= k < |hits| => CommitHit(hits[k].score, hits[k].source))
  }

  function LabelPrs(hits: seq<Scored<PrDoc>>): (r: seq<Labelled>)
    ensures |r| == |hits|
    ensures forall k :: 0 <= k < |r| ==> r[k] == PrHit(hits[k].score, hits[k].source)
  {
    seq(|hits|, k requires 0 <= k < |hits| => PrHit(hits[k].score, hits[k].source))
  }

  /** hits.sort(key=score, reverse=True): higher scores first. */
  predicate ScoreOrder(a: Labelled, b: Labelled) {
    a.score >= b.score
  }

  lemma ScoreOrderPreorder()
    ensures Total(ScoreOrder) && Transitive(ScoreOrder)
  {
  }

  /** The ranking search_all returns when both searches answer. */
  function Ranked(commits: seq<Scored<CommitDoc>>, prs: seq<Scored<PrDoc>>): seq<Labelled> {
    SortBy(LabelCommits(commits) + LabelPrs(prs), ScoreOrder)
  }

  /** search_all: [] if either search raises (the PR search is not even made
    * when the commit search raises); otherwise the commit hits labelled
    * "commit" then the PR hits labelled "pr", sorted by score. */
  method SearchAll(commitsReply: Reply<CommitDoc>, prsReply: Reply<PrDoc>) returns (hits: seq<Labelled>)
    ensures commitsReply.Raised? || prsReply.Raised? ==> hits == []
    ensures commitsReply.Answered? && prsReply.Answered? ==>
      hits == Ranked(HitsOf(commitsReply), HitsOf(prsReply))
  {
    if commitsReply.Raised? || prsReply.Raised? {
      return [];
    }
    var commits := HitsOf(commitsReply);
    var prs := HitsOf(prsReply);
    hits := [];
    for i := 0 to |commits|
      invariant hits == LabelCommits(commits[..i])
    {
      hits := hits + [CommitHit(commits[i].score, commits[i].source)];
    }
    assert commits[..|commits|] == commits;
    for i := 0 to |prs|
      invariant hits == LabelCommits(commits) + LabelPrs(prs[..i])
    {
      hits := hits + [PrHit(prs[i].score, prs[i].source)];
    }
    assert prs[..|prs|] == prs;
    hits := SortBy(hits, ScoreOrder);
  }

  /** The ranking is ordered by score, highest first, and holds exactly the
    * labelled hits of both searches. */
  lemma RankedOrder(commits: seq<Scored<CommitDoc>>, prs: seq<Scored<PrDoc>>)
    ensures var r := Ranked(commits, prs);
      (forall i, j :: 0 <= i < j < |r| ==> r[i].score >= r[j].score)
      && multiset(r) == multiset(LabelCommits(commits) + LabelPrs(prs))
  {
    ScoreOrderPreorder();
    SortBySorted(LabelCommits(commits) + LabelPrs(prs), ScoreOrder);
  }

  /** The sort is stable: among hits of equal score, commits stay before PRs
    * and each group keeps its search order. */
  lemma RankedStable(commits: seq<Scored<CommitDoc>>, prs: seq<Scored<PrDoc>>, h: Labelled)
    ensures ClassOf(Ranked(commits, prs), ScoreOrder, h)
         == ClassOf(LabelCommits(commits) + LabelPrs(prs), ScoreOrder, h)
  {
    ScoreOrderPreorder();
    SortByStable(LabelCommits(commits) + LabelPrs(prs), ScoreOrder, h);
  }

  // ------------------------------------------------------------------ the partition in __main__

  predicate IsCommitHit(h: Labelled) {
    h.CommitHit?
  }

  predicate IsPrHit(h: Labelled) {
    h.PrHit?
  }

  /** [h[1]['_source'] for h in hits if h[0] == 'commit'] */
  function CommitSources(hits: seq<Labelled>): (r: seq<CommitDoc>)
    ensures |r| == |Filter(hits, IsCommitHit)|
    ensures forall k :: 0 <= k < |r| ==>
              Filter(hits, IsCommitHit)[k].CommitHit? && r[k] == Filter(hits, IsCommitHit)[k].commit
  {
    var kept := Filter(hits, IsCommitHit);
    seq(|kept|, k requires 0 <= k < |kept| => kept[k].commit)
  }

  /** [h[1]['_source'] for h in hits if h[0] == 'pr'] */
  function PrSources(hits: seq<Labelled>): (r: seq<PrDoc>)
    ensures |r| == |Filter(hits, IsPrHit)|
    ensures forall k :: 0 <= k < |r| ==> Filter(hits, IsPrHit)[k].PrHit? && r[k] == Filter(hits, IsPrHit)[k].pr
  {
    var kept := Filter(hits, IsPrHit);
    seq(|kept|, k requires 0 <= k < |kept| => kept[k].pr)
  }

  lemma FilterLabels(commits: seq<Scored<CommitDoc>>, prs: seq<Scored<PrDoc>>)
    ensures Filter(LabelCommits(commits), IsCommitHit) == LabelCommits(commits)
    ensures Filter(LabelPrs(prs), IsCommitHit) == []
    ensures Filter(LabelCommits(commits), IsPrHit) == []
    ensures Filter(LabelPrs(prs), IsPrHit) == LabelPrs(prs)
  {
    FilterAll(LabelCommits(commits), IsCommitHit);
    FilterNone(LabelPrs(prs), IsCommitHit);
    FilterNone(LabelCommits(commits), IsPrHit);
    FilterAll(LabelPrs(prs), IsPrHit);
  }

  /** Splitting the ranking by label gives back the hits of each search, as
    * permutations. */
  lemma PartitionPermutes(commits: seq<Scored<CommitDoc>>, prs: seq<Scored<PrDoc>>)
    ensures var r := Ranked(commits, prs);
      multiset(Filter(r, IsCommitHit)) == multiset(LabelCommits(commits))
      && multiset(Filter(r, IsPrHit)) == multiset(LabelPrs(prs))
  {
    var all := LabelCommits(commits) + LabelPrs(prs);
    var r := Ranked(commits, prs);
    RankedOrder(commits, prs);
    FilterPermutation(r, all, IsCommitHit);
    FilterPermutation(r, all, IsPrHit);
    FilterAppend(LabelCommits(commits), LabelPrs(prs), IsCommitHit);
    FilterAppend(LabelCommits(commits), LabelPrs(prs), IsPrHit);
    FilterLabels(commits, prs);
    assert Filter(all, IsCommitHit) == LabelCommits(commits) + [];
    assert Filter(all, IsPrHit) == [] + LabelPrs(prs);
  }

  /** ... and each part stays ordered by score. */
  lemma PartitionRecovers(commits: seq<Scored<CommitDoc>>, prs: seq<Scored<PrDoc>>)
    ensures var r := Ranked(commits, prs);
      multiset(Filter(r, IsCommitHit)) == multiset(LabelCommits(commits))
      && multiset(Filter(r, IsPrHit)) == multiset(LabelPrs(prs))
      && Sorted(Filter(r, IsCommitHit), ScoreOrder)
      && Sorted(Filter(r, IsPrHit), ScoreOrder)
  {
    var r := Ranked(commits, prs);
    PartitionPermutes(commits, prs);
    ScoreOrderPreorder();
    SortBySorted(LabelCommits(commits) + LabelPrs(prs), ScoreOrder);
    FilterSorted(r, ScoreOrder, IsCommitHit);
    FilterSorted(r, ScoreOrder, IsPrHit);
  }

  /** The documents of a permutation of the labelled commit hits are the
    * documents of those hits. */
  lemma CommitDocsOfPermutation(kept: seq<Labelled>, r: seq<CommitDoc>, commits: seq<Scored<CommitDoc>>)
    requires multiset(kept) == multiset(LabelCommits(commits))
    requires |r| == |kept| && forall i :: 0 <= i < |r| ==> kept[i].CommitHit? && r[i] == kept[i].commit
    ensures |r| == |commits|
    ensures forall d :: d in r <==> exists k :: 0 <= k < |commits| && commits[k].source == d
  {
    var labelled := LabelCommits(commits);
    assert |multiset(kept)| == |multiset(labelled)|;
    forall d
      ensures d in r <==> exists k :: 0 <= k < |commits| && commits[k].source == d
    {
      if d in r {
        var i :| 0 <= i < |r| && r[i] == d;
        assert kept[i] in multiset(labelled);
        var k :| 0 <= k < |labelled| && labelled[k] == kept[i];
        assert commits[k].source == d;
      }
      if exists k :: 0 <= k < |commits| && commits[k].source == d {
        var k :| 0 <= k < |commits| && commits[k].source == d;
        assert labelled[k] in multiset(kept);
        var i :| 0 <= i < |kept| && kept[i] == labelled[k];
        assert r[i] == d;
      }
    }
  }

  /** The documents of a permutation of the labelled PR hits are the
    * documents of those hits. */
  lemma PrDocsOfPermutation(kept: seq<Labelled>, r: seq<PrDoc>, prs: seq<Scored<PrDoc>>)
    requires multiset(kept) == multiset(LabelPrs(prs))
    requires |r| == |kept| && forall i :: 0 <= i < |r| ==> kept[i].PrHit? && r[i] == kept[i].pr
    ensures |r| == |prs|
    ensures forall d :: d in r <==> exists k :: 0 <= k < |prs| && prs[k].source == d
  {
    var labelled := LabelPrs(prs);
    assert |multiset(kept)| == |multiset(labelled)|;
    forall d
      ensures d in r <==> exists k :: 0 <= k < |prs| && prs[k].source == d
    {
      if d in r {
        var i :| 0 <= i < |r| && r[i] == d;
        assert kept[i] in multiset(labelled);
        var k :| 0 <= k < |labelled| && labelled[k] == kept[i];
        assert prs[k].source == d;
      }
      if exists k :: 0 <= k < |prs| && prs[k].source == d {
        var k :| 0 <= k < |prs| && prs[k].source == d;
        assert labelled[k] in multiset(kept);
        var i :| 0 <= i < |kept| && kept[i] == labelled[k];
        assert r[i] == d;
      }
    }
  }

  /** The commits handed to ask_claude are the documents of the commit
    * search: one per hit, each of them, and nothing else. */
  lemma CommitSourcesRecover(commits: seq<Scored<CommitDoc>>, prs: seq<Scored<PrDoc>>)
    ensures var r := CommitSources(Ranked(commits, prs));
      |r| == |commits|
      && forall d :: d in r <==> exists k :: 0 <= k < |commits| && commits[k].source == d
  {
    PartitionPermutes(commits, prs);
    CommitDocsOfPermutation(Filter(Ranked(commits, prs), IsCommitHit), CommitSources(Ranked(commits, prs)), commits);
  }

  /** The PRs handed to ask_claude are the documents of the PR search. */
  lemma PrSourcesRecover(commits: seq<Scored<CommitDoc>>, prs: seq<Scored<PrDoc>>)
    ensures var r := PrSources(Ranked(commits, prs));
      |r| == |prs|
      && forall d :: d in r <==> exists k :: 0 <= k < |prs| && prs[k].source == d
  {
    PartitionPermutes(commits, prs);
    PrDocsOfPermutation(Filter(Ranked(commits, prs), IsPrHit), PrSources(Ranked(commits, prs)), prs);
  }

  // ------------------------------------------------------------------ ask_claude: the prompt

  const PrHeader: string := "Relevant PRs:\n\n"
  const CommitHeader: string := "Relevant commits:\n\n"
  const PromptIntro: string :=
    "\nYou are an AI assistant helping analyze a GitHub repository's history.\nHere are some relevant results (PRs and commits):\n\n"
  const PromptQuestion: string := "\n\nUsing the commit history above, answer the following question:\n\nQuestion: "

  /** The hash as the commit context shows it: commit['commit_hash'][:7]. */
  function ShortHash(hash: string): (r: string)
    ensures StartsWith(hash, r)
    ensures |r| == if |hash| < 7 then |hash| else 7
  {
    Take(hash, 7)
  }

  /** The lines one commit adds to the commit context. */
  function CommitBlock(c: CommitDoc): string {
    "- [" + ShortHash(c.commitHash) + "] " + c.message + "\n"
      + "  Author: " + c.author + ", Files: " + c.changedFiles + "\n\n"
  }

  /** The commit context: the header and one block per commit. */
  function CommitBlocks(commits: seq<CommitDoc>): string {
    if commits == [] then CommitHeader
    else CommitBlocks(commits[..|commits| - 1]) + CommitBlock(commits[|commits| - 1])
  }

  /** The commit context loop. */
  method CommitContext(commits: seq<CommitDoc>) returns (ctx: string)
    ensures ctx == CommitBlocks(commits)
  {
    ctx := CommitHeader;
    for i := 0 to |commits|
      invariant ctx == CommitBlocks(commits[..i])
    {
      assert commits[..i + 1][..i] == commits[..i];
      ctx := ctx + CommitBlock(commits[i]);
    }
    assert commits[..|commits|] == commits;
  }

  /** What ', '.join raises when item i of its list is None. */
  function JoinNone(i: nat): Exception {
    Exception("sequence item " + NatToString(i) + ": expected str instance, NoneType found", "TypeError")
  }

  /** f.get('filename', '') for each file; a null name makes the join raise,
    * naming the position of the first one. */
  function FileNames(files: seq<FileItem>): (r: Result<seq<string>, Exception>)
    ensures r.Err? <==> exists k :: 0 <= k < |files| && files[k].filename.Null?
    ensures r.Ok? ==> |r.value| == |files|
  {
    if files == [] then Ok([])
    else
      var init := files[..|files| - 1];
      var f := files[|files| - 1];
      assert forall k :: 0 <= k < |init| ==> init[k] == files[k];
      match FileNames(init)
      case Err(e) => Err(e)
      case Ok(names) =>
        match f.filename
        case Absent => Ok(names + [""])
        case Null => Err(JoinNone(|init|))
        case Present(n) => Ok(names + [n])
  }

  /** The TypeError names the position of the first null file name. */
  lemma {:induction false} FileNamesFirstNull(files: seq<FileItem>, k: nat)
    requires k < |files| && files[k].filename.Null?
    requires forall j :: 0 <= j < k ==> !files[j].filename.Null?
    ensures FileNames(files) == Err(JoinNone(k))
    decreases |files|
  {
    var init := files[..|files| - 1];
    if k < |init| {
      assert init[k] == files[k];
      FileNamesFirstNull(init, k);
    } else {
      assert forall j :: 0 <= j < |init| ==> init[j] == files[j];
    }
  }

  /** An f-string shows None as "None". */
  function ShowOption(o: Option<string>): string {
    if o.Some? then o.value else "None"
  }

  /** The lines one PR adds to the PR context, given its file names. The
    * stored PR documents have no 'user' member, so the author always shows
    * as None. */
  function PrText(pr: PrDoc, names: seq<string>): string {
    "- PR #" + IntToString(pr.prNumber) + " Title: " + ShowOption(pr.title) + "\n"
      + "  Author: None, Merged at: " + ShowOption(pr.mergedAt) + "\n"
      + "  Files changed: " + Join(names, ", ") + "\n"
      + "  Comments: " + IntToString(|pr.comments|) + " review comments\n\n"
  }

  /** The PR's lines, or the error its file names raise. */
  function PrBlock(pr: PrDoc): (r: Result<string, Exception>)
    ensures r.Err? <==> exists k :: 0 <= k < |pr.files| && pr.files[k].filename.Null?
  {
    match FileNames(pr.files)
    case Err(e) => Err(e)
    case Ok(names) => Ok(PrText(pr, names))
  }

  /** The PR context: the header and the PR blocks, or the first error one
    * of them raises. */
  function PrBlocks(prs: seq<PrDoc>): Result<string, Exception> {
    if prs == [] then Ok(PrHeader)
    else
      var init := prs[..|prs| - 1];
      match PrBlocks(init)
      case Err(e) => Err(e)
      case Ok(front) =>
        match PrBlock(prs[|prs| - 1])
        case Err(e) => Err(e)
        case Ok(block) => Ok(front + block)
  }

  /** The PR context loop; the first PR with a null file name stops it. */
  method PrContext(prs: seq<PrDoc>) returns (r: Result<string, Exception>)
    ensures r.Ok? <==> PrBlocks(prs).Ok?
    ensures r.Ok? ==> r.value == PrBlocks(prs).value
  {
    var ctx := PrHeader;
    var i := 0;
    while i < |prs|
      invariant i <= |prs|
      invariant PrBlocks(prs[..i]).Ok?
      invariant ctx == PrBlocks(prs[..i]).value
    {
      var block := PrBlock(prs[i]);
      if block.Err? {
        PrBlocksFail(prs, i);
        return block;
      }
      PrBlocksStep(prs, i);
      ctx := ctx + block.value;
      i := i + 1;
    }
    assert prs[..i] == prs;
    return Ok(ctx);
  }

  /** The PR context fails exactly when some PR has a null file name. */
  lemma {:induction false} PrBlocksFails(prs: seq<PrDoc>)
    ensures PrBlocks(prs).Err? <==> exists k :: 0 <= k < |prs| && PrBlock(prs[k]).Err?
    decreases |prs|
  {
    if prs != [] {
      var init := prs[..|prs| - 1];
      var last := prs[|prs| - 1];
      PrBlocksFails(init);
      if PrBlocks(init).Err? {
        assert PrBlocks(prs).Err?;
        var k :| 0 <= k < |init| && PrBlock(init[k]).Err?;
        assert init[k] == prs[k];
      } else if PrBlock(last).Err? {
        assert PrBlocks(prs).Err?;
      } else {
        assert PrBlocks(prs).Ok?;
        forall k | 0 <= k < |prs|
          ensures PrBlock(prs[k]).Ok?
        {
          if k < |init| {
            assert init[k] == prs[k];
          }
        }
      }
    }
  }

  lemma PrBlocksFail(prs: seq<PrDoc>, i: nat)
    requires i < |prs| && PrBlock(prs[i]).Err?
    ensures PrBlocks(prs).Err?
  {
    PrBlocksFails(prs);
  }

  lemma PrBlocksStep(prs: seq<PrDoc>, i: nat)
    requires i < |prs| && PrBlocks(prs[..i]).Ok?
    ensures PrBlock(prs[i]).Err? ==> PrBlocks(prs[..i + 1]).Err?
    ensures PrBlock(prs[i]).Ok? ==>
      PrBlocks(prs[..i + 1]) == Ok(PrBlocks(prs[..i]).value + PrBlock(prs[i]).value)
  {
    assert prs[..i + 1][..i] == prs[..i];
  }

  /** The prompt around the two contexts. */
  function Prompt(query: string, prContext: string, commitContext: string): string {
    PromptIntro + prContext + "\n" + commitContext + PromptQuestion + query + "\n"
  }

  // ------------------------------------------------------------------ ask_claude: the answer

  datatype ContentItem = ContentItem(text: Option<string>)

  /** The decoded reply: its "content" list and its "completion", when present. */
  datatype ModelReply = ModelReply(content: Option<seq<ContentItem>>, completion: Option<string>)

  const Unable: string := "⚠️ Unable to extract answer from Claude."

  /** The first content item's text (or "" without one) when there is content,
    * else the completion, else a fixed warning. */
  function ExtractAnswer(reply: ModelReply): (r: string)
    ensures reply.content.Some? && |reply.content.value| > 0 ==> r == reply.content.value[0].text.GetOr("")
    ensures (reply.content.None? || reply.content.value == []) && reply.completion.Some? ==>
      r == reply.completion.value
    ensures (reply.content.None? || reply.content.value == []) && reply.completion.None? ==> r == Unable
  {
    if reply.content.Some? && |reply.content.value| > 0 then reply.content.value[0].text.GetOr("")
    else if reply.completion.Some? then reply.completion.value
    else Unable
  }

  /** ask_claude: the prompt from the PR and commit contexts, sent to the
    * model, and the answer extracted from its reply. */
  method AskClaude(query: string, commits: seq<CommitDoc>, prs: seq<PrDoc>, invoke: string -> ModelReply)
    returns (r: Result<string, Exception>)
    ensures PrBlocks(prs).Err? <==> r.Err?
    ensures r.Ok? ==>
      r.value == ExtractAnswer(invoke(Prompt(query, PrBlocks(prs).value, CommitBlocks(commits))))
  {
    var prContext := PrContext(prs);
    if prContext.Err? {
      return Err(prContext.error);
    }
    var commitContext := CommitContext(commits);
    var prompt := Prompt(query, prContext.value, commitContext);
    return Ok(ExtractAnswer(invoke(prompt)));
  }
}
