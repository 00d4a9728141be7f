# git-lineage, modelled in Dafny

git-lineage turns a GitHub repository's history into something you can ask
questions about. It works in four stages:

- **Extraction.** It pulls code symbols out of source files with regular-expression templates and a Python syntax tree.
- **Storage.** It keeps symbols in a small SQLite store.
- **Ingestion.** It reads commits and pull requests from `git log` and the GitHub REST API and turns them into embedded documents.
- **Answering.** It retrieves the nearest documents from a FAISS or OpenSearch index and asks a language model to answer from them.

This project models the deterministic core of those stages and proves what
the code promises. One Dafny module models each source file:

| module | source file |
|---|---|
| `CodeParser` | `backend/processors/code_parser.py` |
| `BedrockLambda` | `backend/aws_bedrock_api/lambda_function/lambda_function.py` |
| `GitHubProcessor` | `backend/processors/git_processor.py` |
| `GitIngest` | `backend/git_processor.py` |
| `SymbolIndex` | `backend/database/index_repo.py` |
| `SymbolQueries` | `backend/database/query_repo.py` |
| `TreeSymbols` | `backend/database/parser.py` |
| `FaissIndex` | `backend/retrieval/faiss_indexer.py` |
| `QueryScript` | `backend/test_query.py` |
| `UnifiedQuery` | `backend/unified_query.py` |
| `EmbeddingGen` | `backend/processors/generate_embeddings.py` |

Two shared modules support them:

- `Common` models the part of Python's string and list library that the code uses: `strip`, `split`, `join`, `replace`, slicing, `str(int)` and `int(str)` (ASCII digits, with single `_` separators between digits as Python allows). It also holds the `Option` and `Result` wrappers.
- `Sorting` holds a stable insertion sort by a total preorder. It stands for both SQL `ORDER BY` and Python's `sort`.

Everything outside the process becomes a parameter of the operation that uses
it: git subprocesses, HTTP, Bedrock, OpenSearch, FAISS, SQLite, the file
system, the regex engine, tree-sitter and `ast`. Each parameter's value is
what the source receives from the foreign code: a string of standard output,
a decoded reply, a list of captures, or `None` where the source catches a
failure. Python exceptions that propagate are the `Err` case of a `Result`.

Where the source updates state in place, the model does too:

- the SQLite tables of the symbol indexer are the fields of the class `SymbolIndex.SymbolDb`;
- the two OpenSearch indices are the fields of `GitIngest.Indices`;
- the Lambda's `REPO_CACHE` is the field of `BedrockLambda.Handler`.

Loops that append or count are methods with loop invariants, proved equal to
a specification function. The properties are then proved about that function.

Three details of the code are kept as written:

- **The PR author shown by `test_query.py`.** The PR context reads `pr.get('user')`, and the PR documents that `backend/git_processor.py` stores have no `user` key. The author is therefore always shown as `None`. `QueryScript.PrBlock` keeps it that way.
- **PR files in `test_query.py`.** A PR file whose `filename` is JSON `null` makes `', '.join` raise `TypeError`. This is the `Err` of `QueryScript.PrContext`.
- **Null nested objects in the GitHub listings.** A listing item may carry `null` in place of its `commit`, `commit.author` or `user` object. The code does not guard against such an input: indexing the null raises `TypeError`. The Lambda's loops catch only `KeyError`, so the `TypeError` ends `process` with a 500 (`BedrockLambda.ProcessNullAuthor`). In `backend/processors/git_processor.py` it ends the fetch just as a missing key does, but with a different exception type (`GitHubProcessor.CommitFault`, `GitHubProcessor.PrFault`).

## Model

| member | source | states |
|---|---|---|
| CodeParser.DetectIndex | backend/processors/code_parser.py:9-20 | the index found claims a suffix of the filename, and no earlier table entry does |
| CodeParser.DetectLanguage | backend/processors/code_parser.py:15-20 | None exactly when no extension list claims a suffix; otherwise the first language in table order that does |
| CodeParser.ScanFrom | backend/processors/code_parser.py:171-182 | the resumed scan ends on a line after the current one, at most len(lines) |
| CodeParser.BlockEnd | backend/processors/code_parser.py:166-182 | for start < len(lines) the result lies in [start+1, len(lines)]; otherwise it is len(lines) |
| CodeParser.FindBlockEnd | backend/processors/code_parser.py:166-182 | the loop over lines and characters computes BlockEnd, so its result is within [startIdx+1, len(lines)] |
| CodeParser.ScanUnclosed | backend/processors/code_parser.py:171-182 | a scan resumed with the count and flag the text so far gives, and with no closing brace ahead, reaches len(lines) |
| CodeParser.ScanFirstClose | backend/processors/code_parser.py:173-180 | a resumed scan returns line+1 of the first '}' ahead that brings the depth back to 0 after a '{' |
| CodeParser.BlockEndAtFirstClose | backend/processors/code_parser.py:171-180 | find_block_end returns i+1 for the first '}' that brings the brace count to 0 after some '{' |
| CodeParser.BlockEndUnclosed | backend/processors/code_parser.py:171-182 | when no brace ever closes the block, find_block_end returns len(lines) |
| CodeParser.FirstMatch | backend/processors/code_parser.py:111-115 | the first template whose capture is accepted (non-empty, not a rejected keyword); all earlier ones are not accepted |
| CodeParser.ScanFunctionTemplates | backend/processors/code_parser.py:110-131 | the loop over the function templates with its break yields the line's function entity |
| CodeParser.ScanClassTemplates | backend/processors/code_parser.py:133-162 | the loop over the class templates with its break yields the line's class-like entity |
| CodeParser.ParseLine | backend/processors/code_parser.py:104-162 | one line's entities: none for a skipped line, else the function entity then the class-like entity |
| CodeParser.ParseLines | backend/processors/code_parser.py:104-164 | the line loop yields the entities of all lines in order |
| CodeParser.ParseJsTs | backend/processors/code_parser.py:79-164 | parse_js_ts_with_regex splits the source on "\n" and scans the lines |
| CodeParser.FunctionEntityShape | backend/processors/code_parser.py:111-131 | at most one function entity per line, starting at that 1-based line, with a non-empty name that is not if/for/while/switch/catch, end_line = find_block_end and code = the lines in between |
| CodeParser.ClassEntityShape | backend/processors/code_parser.py:134-162 | at most one class-like entity per line; its kind is interface/type/enum/class by substring tests in that order; same span rules |
| CodeParser.LineEntitiesShape | backend/processors/code_parser.py:104-162 | a line yields at most two entities, a function before a class-like one, both starting at that line |
| CodeParser.EntitiesInLineOrder | backend/processors/code_parser.py:104-164 | entities come out in line order, with start lines in 1..n |
| CodeParser.AppendLine | backend/processors/code_parser.py:104-164 | appending the entities of the next line keeps line order and the start-line bound |
| CodeParser.EntitiesWellFormed | backend/processors/code_parser.py:104-164 | every entity comes from a line that is not blank or a comment, and has a well-formed name and span |
| CodeParser.ParseCodeFile | backend/processors/code_parser.py:184-206 | [] for an unsupported extension or an unreadable file; the ast result (or [] on failure) for Python; the template scan for JavaScript/TypeScript |
| BedrockLambda.ExtractRepoInfo | backend/aws_bedrock_api/lambda_function/lambda_function.py:41-56 | ValueError unless the URL starts with https://github.com/; on success full_name is owner/repo and api_url is built from the same segments |
| BedrockLambda.ExtractRepoInfoSegments | backend/aws_bedrock_api/lambda_function/lambda_function.py:43-56 | owner, repo and any further path segments parse back to owner and repo; extra segments are ignored |
| BedrockLambda.ExtractRepoInfoOneSegment | backend/aws_bedrock_api/lambda_function/lambda_function.py:42-48 | a github.com URL with a single path segment, with or without one trailing '/', raises ValueError "Invalid repository URL format: " followed by the URL |
| BedrockLambda.SegmentsSplit | backend/aws_bedrock_api/lambda_function/lambda_function.py:44 | after rstrip('/') and split('/'), the first two parts are owner and repo |
| BedrockLambda.ReplaceLeadingPrefix | backend/aws_bedrock_api/lambda_function/lambda_function.py:44 | replacing the prefix removes exactly the leading prefix when the rest holds no "//" |
| BedrockLambda.CreateEmbedding | backend/aws_bedrock_api/lambda_function/lambda_function.py:26-39 | the model receives the first 8000 characters; a failure gives [] |
| BedrockLambda.EmbeddingInputBounded | backend/aws_bedrock_api/lambda_function/lambda_function.py:29 | the text sent is a prefix of at most 8000 characters, and the whole text when it is shorter |
| BedrockLambda.ToCommit | backend/aws_bedrock_api/lambda_function/lambda_function.py:89-99 | reading sha, commit.message, commit.author.name/date and html_url in order: a record exactly when all are present; TypeError exactly when a null commit or commit.author is indexed before any key is found missing; a skip otherwise |
| BedrockLambda.ToPr | backend/aws_bedrock_api/lambda_function/lambda_function.py:116-127 | a record exactly when every key is present; TypeError exactly when number, title and state are present and user is null; a skip otherwise |
| BedrockLambda.CollectFails | backend/aws_bedrock_api/lambda_function/lambda_function.py:88-99 | the fetch loop fails exactly when some item raises, and then with the exception of the first such item |
| BedrockLambda.CollectErrAfter | backend/aws_bedrock_api/lambda_function/lambda_function.py:88-99 | once an item has raised, the later items do not matter |
| BedrockLambda.CollectAll | backend/aws_bedrock_api/lambda_function/lambda_function.py:88-99 | when every item is complete, there is one record per item, in order |
| BedrockLambda.CollectFrom | backend/aws_bedrock_api/lambda_function/lambda_function.py:88-99 | every record comes from some item of the page |
| BedrockLambda.FetchCommits | backend/aws_bedrock_api/lambda_function/lambda_function.py:77-102 | the loop over the first MAX_COMMITS items yields the records of the complete items, in order, or the TypeError of the first item with a null nested object; [] on a falsy response |
| BedrockLambda.FetchPullRequests | backend/aws_bedrock_api/lambda_function/lambda_function.py:104-130 | the same for pull requests with MAX_PRS |
| BedrockLambda.CommitRecordsBounds | backend/aws_bedrock_api/lambda_function/lambda_function.py:85-99 | at most 50 commit records; exactly min(len, 50) when every item is complete; a TypeError exactly when one of the first 50 items raises |
| BedrockLambda.PrRecordsBounds | backend/aws_bedrock_api/lambda_function/lambda_function.py:112-128 | at most 30 PR records; exactly min(len, 30) when every item is complete; a TypeError exactly when one of the first 30 items raises |
| BedrockLambda.CommitRecordFromItem | backend/aws_bedrock_api/lambda_function/lambda_function.py:88-96 | every commit record comes from one of the first 50 response items |
| BedrockLambda.FetchRepoInfo | backend/aws_bedrock_api/lambda_function/lambda_function.py:132-153 | {} exactly when the request gives nothing; otherwise name, description, language, stars, forks and open_issues, each the reply's value or its default ('' or 0) when the key is missing |
| BedrockLambda.ProcessRepository | backend/aws_bedrock_api/lambda_function/lambda_function.py:155-186 | fails exactly when the URL does not parse or one of the two fetch loops raises (a TypeError then); the stats count the commit and PR lists, functions_count is 0, and the caps hold |
| BedrockLambda.CommitLines | backend/aws_bedrock_api/lambda_function/lambda_function.py:204-207 | one line per listed commit, in order |
| BedrockLambda.PrLines | backend/aws_bedrock_api/lambda_function/lambda_function.py:212-215 | one line per listed PR, in order |
| BedrockLambda.JoinEmpty | backend/aws_bedrock_api/lambda_function/lambda_function.py:218 | a join with a non-empty separator is empty exactly when there are no parts or one empty part |
| BedrockLambda.BuildContextEmpty | backend/aws_bedrock_api/lambda_function/lambda_function.py:188-218 | the context is empty exactly when there are no details, no commits and no PRs |
| BedrockLambda.BuildContextLayout | backend/aws_bedrock_api/lambda_function/lambda_function.py:188-218 | repo block, then commits, then PRs; each section is there only when its source is non-empty; at most 10 lines per section, messages and titles cut to 100 characters |
| BedrockLambda.Handler.Handle | backend/aws_bedrock_api/lambda_function/lambda_function.py:227-357 | one request: the response and the new REPO_CACHE are those of the handler specification; the process branch runs process_repository and caches only its result |
| BedrockLambda.OptionsIsOk | backend/aws_bedrock_api/lambda_function/lambda_function.py:235-237 | OPTIONS gives 200 with an empty body and leaves the cache alone |
| BedrockLambda.ProcessActionShape | backend/aws_bedrock_api/lambda_function/lambda_function.py:250-273 | the process action answers 200, 400 or 500, and 500 exactly with an error report |
| BedrockLambda.AskActionShape | backend/aws_bedrock_api/lambda_function/lambda_function.py:275-324 | the ask action answers 200, 400 or 500, and 500 exactly with an error report |
| BedrockLambda.HandleShape | backend/aws_bedrock_api/lambda_function/lambda_function.py:227-357 | every response has a status of 200, 400 or 500; only a decoded process request changes the cache |
| BedrockLambda.HandleRejects | backend/aws_bedrock_api/lambda_function/lambda_function.py:250-258 | process without repo_url gives 400; an unknown action gives 400; a URL that does not parse gives 500 with ValueError; the cache is unchanged |
| BedrockLambda.HandleDecodeFailure | backend/aws_bedrock_api/lambda_function/lambda_function.py:242-243 | a body that does not decode gives 500 with the error text and type name |
| BedrockLambda.ProcessUpdatesCache | backend/aws_bedrock_api/lambda_function/lambda_function.py:260-273 | process stores the result under the URL, replacing any earlier entry and keeping the others; its stats count the lists |
| BedrockLambda.ProcessNullAuthor | backend/aws_bedrock_api/lambda_function/lambda_function.py:93-97 | a commit with a null author among the first 50 makes process answer 500 with TypeError and leaves the cache unchanged |
| BedrockLambda.AskUsesCache | backend/aws_bedrock_api/lambda_function/lambda_function.py:283-324 | ask reads the cache without changing it; an empty content list gives 500 with IndexError |
| GitHubProcessor.RepoInfoOf | backend/processors/git_processor.py:19-36 | ValueError for an unsupported prefix or a path that does not split into exactly two segments; api_url is built from owner and repo |
| GitHubProcessor.RemoveTrailingGit | backend/processors/git_processor.py:25 | corrected reading: only a trailing ".git" is removed |
| GitHubProcessor.ExtractRepoInfoAsWritten | backend/processors/git_processor.py:19-36 | the method as written, with every ".git" removed from the SSH form |
| GitHubProcessor.ExtractRepoInfo | backend/processors/git_processor.py:19-36 | the corrected method; on success api_url is built from owner and repo |
| GitHubProcessor.SshPathPart | backend/processors/git_processor.py:24-25 | the SSH form passes its path through the .git removal |
| GitHubProcessor.RepoInfoOfTwoSegments | backend/processors/git_processor.py:29-36 | a path of exactly two segments gives owner, repo and the API URL |
| GitHubProcessor.AsWrittenDropsInnerGit | backend/processors/git_processor.py:25 | as written, git@github.com:o/.gitx is read as repository "x" |
| GitHubProcessor.CorrectedKeepsInnerGit | backend/processors/git_processor.py:25 | corrected, the same URL gives repository ".gitx" |
| GitHubProcessor.ExtractSshRoundTrip | backend/processors/git_processor.py:24-36 | corrected, any SSH URL with or without ".git" gives back its owner and repository |
| GitHubProcessor.ConvertAll | backend/processors/git_processor.py:60-94 | converting a page either fails or yields one record per item |
| GitHubProcessor.PagedExtends | backend/processors/git_processor.py:45-103 | the paging loop never drops what it has collected |
| GitHubProcessor.PagedBounded | backend/processors/git_processor.py:45-50 | when the server honours per_page, the loop collects at most MAX_COMMITS records |
| GitHubProcessor.PagedFull | backend/processors/git_processor.py:45-99 | when every page is full, the loop collects exactly the cap |
| GitHubProcessor.ObjectFault | backend/processors/git_processor.py:62-75 | indexing a nested object raises KeyError when it is absent and TypeError when it is null |
| GitHubProcessor.PersonFault | backend/processors/git_processor.py:64-73 | the author or committer object yields name, email and date exactly when all are present; TypeError exactly when the object is null |
| GitHubProcessor.CommitFault | backend/processors/git_processor.py:61-76 | commit_data is built exactly when every key it reads is present; TypeError exactly when a null commit, author or committer object is indexed before a key is found missing |
| GitHubProcessor.DiffPartsOnePerPatch | backend/processors/git_processor.py:84-90 | one "--- filename\npatch" part per file with a non-empty patch, in order |
| GitHubProcessor.CollectDiffParts | backend/processors/git_processor.py:86-89 | the loop over a commit's files computes those parts |
| GitHubProcessor.DiffPartsNoneSticks | backend/processors/git_processor.py:87-89 | once a patched file lacks its filename, the diff fails as a whole |
| GitHubProcessor.CommitRecordOf | backend/processors/git_processor.py:61-94 | one commit's record: the first KeyError or TypeError of the key reads; code_diff stays '' when the detail fetch fails or has no files |
| GitHubProcessor.FetchCommits | backend/processors/git_processor.py:38-106 | the while loop equals the paging function over the listing at api_url + "/commits": per_page is min(perPage, cap - collected), and the page number rises by one per page |
| GitHubProcessor.ConvertAllErrSticks | backend/processors/git_processor.py:60-94 | the first item that raises is the page's error |
| GitHubProcessor.ConvertAllErrAfter | backend/processors/git_processor.py:60-94 | items after the first error do not change it |
| GitHubProcessor.PrCodeDiff | backend/processors/git_processor.py:161-172 | a non-empty code_diff means a truthy patch_url fetched with status 200 |
| GitHubProcessor.UserFault | backend/processors/git_processor.py:143-146 | the user object yields login and avatar_url exactly when both are present; TypeError exactly when it is null |
| GitHubProcessor.RefFault | backend/processors/git_processor.py:147-154 | a head or base object yields ref and sha exactly when both are present; TypeError exactly when it is null |
| GitHubProcessor.PrFault | backend/processors/git_processor.py:134-158 | pr_data is built exactly when every key it reads is present (null allowed where the source allows it); TypeError exactly when a null user, head or base is indexed before a key is found missing |
| GitHubProcessor.PrOfFields | backend/processors/git_processor.py:137-172 | a null body becomes ''; code_diff is '' unless the patch fetch succeeds |
| GitHubProcessor.PrRecordOf | backend/processors/git_processor.py:133-174 | pr_data is built, then code_diff is set: fails exactly when a key read raises; a null body is stored as ''; code_diff is the patch text exactly when patch_url is truthy and its request returned 200, else '' |
| GitHubProcessor.FetchPullRequests | backend/processors/git_processor.py:108-186 | the while loop equals the paging function over the listing at api_url + "/pulls", with MAX_PRS and MAX_PRS_PER_PAGE |
| GitHubProcessor.ProcessRepository | backend/processors/git_processor.py:208-244 | a URL error propagates; otherwise the saved lists are the paging results of the listings at api_url + "/commits" and api_url + "/pulls" of the parsed repository, and the counts are their lengths |
| GitHubProcessor.AsWrittenListsOtherRepository | backend/processors/git_processor.py:25 | as written, the commits of git@github.com:o/.gitx are requested from .../repos/o/x/commits; the corrected parser requests .../repos/o/.gitx/commits |
| GitIngest.ParseLogLine | backend/git_processor.py:58-69 | a line is skipped exactly when it is empty or does not split into 5 fields on at most 4 '\|'; a timestamp int() rejects is a ValueError |
| GitIngest.ParseLogLineUnderscore | backend/git_processor.py:58-69 | int() reads a timestamp written with a digit separator: the line `h\|a\|e\|1_0\|m` gives timestamp 10 |
| GitIngest.ParseLogLinesCons | backend/git_processor.py:58-69 | the line loop, one step |
| GitIngest.FetchCommits | backend/git_processor.py:46-72 | the loop over the stripped, split stdout computes ParseGitLog |
| GitIngest.ParseLogLinesFilters | backend/git_processor.py:58-69 | without errors the records are the parsed lines kept in input order |
| GitIngest.ParseLogLinesFails | backend/git_processor.py:67 | the first line with a bad timestamp is the error |
| GitIngest.SplitLogLine | backend/git_processor.py:60-62 | a formatted line splits back into hash, author, email, timestamp and message, even with '\|' in the message |
| GitIngest.LogLineRoundTrip | backend/git_processor.py:58-69 | parsing a formatted line gives back the entry |
| GitIngest.FormatLogLines | backend/git_processor.py:50 | one line per entry |
| GitIngest.LogLinesRoundTrip | backend/git_processor.py:58-69 | parsing formatted lines gives back the entries, in order |
| GitIngest.ParseLogLinesAll | backend/git_processor.py:58-69 | lines that each parse to an entry parse, together, to those entries in the same order |
| GitIngest.LogRoundTrip | backend/git_processor.py:46-72 | parsing git's whole output gives back the entries |
| GitIngest.ChangedFilesOfNames | backend/git_processor.py:83-84 | the non-empty names joined with ", " in order, or "No files" |
| GitIngest.CommitDocOf | backend/git_processor.py:96-105 | the document keeps the hash and the files, and embeds "Message: …\nFiles: …" |
| GitIngest.StoreCommit | backend/git_processor.py:86-111 | an existing hash leaves the store unchanged; otherwise the document is stored under its hash |
| GitIngest.StoreAllKeeps | backend/git_processor.py:131-144 | after processing, earlier documents are unchanged, every commit hash is stored, and nothing else is |
| GitIngest.StoreAllFirst | backend/git_processor.py:131-144 | the first commit with a new hash is the one stored (first writer wins) |
| GitIngest.Indices.StoreCommitDoc | backend/git_processor.py:86-111 | store_commit on the commits index, leaving the PR index alone |
| GitIngest.Indices.ProcessRepository | backend/git_processor.py:113-150 | a parse error stores nothing; otherwise every parsed commit is processed in order |
| GitIngest.Indices.IndexPr | backend/git_processor.py:250-252 | indexing overwrites the document with that id |
| GitIngest.FetchMergedPrs | backend/git_processor.py:162-171 | RuntimeError exactly for a non-200 status; otherwise exactly the PRs with a truthy merged_at |
| GitIngest.MergedPrsOrder | backend/git_processor.py:169 | the filter keeps the order of the input |
| GitIngest.ShowStr | backend/git_processor.py:217-233 | how an f-string shows a missing, null or present value |
| GitIngest.ShowInt | backend/git_processor.py:225 | how an f-string shows a missing, null or present number |
| GitIngest.CommentLine | backend/git_processor.py:233 | a missing line number is shown as '?' |
| GitIngest.CommitLines | backend/git_processor.py:228-229 | one line per commit, or the first commit that raises |
| GitIngest.PrParts | backend/git_processor.py:216-235 | fails exactly when the author is null or some commit line raises; otherwise Title, Description, Author, Merged at, then one line per file, commit and review comment under their headers, in order |
| GitIngest.PrDocIdRoundTrip | backend/git_processor.py:251 | the document id determines owner, repository and number |
| GitIngest.PrDocIdInjective | backend/git_processor.py:251 | two PRs share an id exactly when they are the same PR, so reprocessing overwrites |
| GitIngest.ListOrEmpty | backend/git_processor.py:181-203 | the list fetches give [] on a non-200 status |
| GitIngest.ProcessPr | backend/git_processor.py:205-253 | a details failure propagates and stores nothing; otherwise the document is stored under owner_repo_number |
| SymbolIndex.FindGitRoot | backend/database/index_repo.py:13-19 | the nearest ancestor, the path itself included, that holds .git; RuntimeError when none does; "/" is never checked |
| SymbolIndex.FileIdOf | backend/database/index_repo.py:66-68 | the SELECT finds the id of the row with that path, if any |
| SymbolIndex.FileIdOfAppend | backend/database/index_repo.py:58-68 | a new path gets the next id and existing ids are kept |
| SymbolIndex.RowsOfFile | backend/database/index_repo.py:101-102 | one row per parsed symbol, with the file's id and the head sha, in parser order |
| SymbolIndex.SymbolRowsStable | backend/database/index_repo.py:91-102 | adding file rows does not change the symbol rows of files already registered |
| SymbolIndex.SymbolDb.InsertCommit | backend/database/index_repo.py:41-55 | INSERT OR IGNORE: a known sha leaves the table unchanged; otherwise a row with the stripped message and the ISO timestamp is added |
| SymbolIndex.SymbolDb.InsertFile | backend/database/index_repo.py:58-68 | the same path always gives the same id; a new path gets a new id; ids are kept |
| SymbolIndex.SymbolDb.InsertSymbol | backend/database/index_repo.py:71-79 | one row is appended unconditionally |
| SymbolIndex.SymbolDb.InsertSymbols | backend/database/index_repo.py:101-102 | N symbols add N rows |
| SymbolIndex.SymbolDb.IndexHead | backend/database/index_repo.py:85-105 | the head commit is inserted once, every indexable blob has a file id, and the symbol rows are those of the indexable blobs in order |
| SymbolIndex.SymbolDb.IndexBlob | backend/database/index_repo.py:91-102 | one indexable blob: its path gets a file id (kept ids unchanged, no other new id) and its symbol rows are appended after the earlier blobs' rows |
| SymbolQueries.LikeAnything | backend/database/query_repo.py:14 | '%' matches every string |
| SymbolQueries.Like | backend/database/query_repo.py:14 | SQLite's LIKE: a string that matches has at least one character per pattern character other than '%' |
| SymbolQueries.LikeLiteral | backend/database/query_repo.py:14 | a wildcard-free pattern prefix matches a case-insensitive prefix |
| SymbolQueries.LikeLeadingPercent | backend/database/query_repo.py:14 | a leading '%' matches any suffix |
| SymbolQueries.LikeContains | backend/database/query_repo.py:14-16 | for a name without % or _, LIKE '%name%' is an ASCII case-insensitive substring test |
| SymbolQueries.UnderscoreIsWildcard | backend/database/query_repo.py:14-16 | '_' in the searched name is a wildcard: "a_c" finds "ABC", which does not contain it |
| SymbolQueries.HitsOf | backend/database/query_repo.py:11-13 | one result per files row whose file_id matches the symbol's (an inner join) |
| SymbolQueries.JoinWhereMembers | backend/database/query_repo.py:11-14 | the join holds exactly the pairs of a matching symbol and a files row with its file_id |
| SymbolQueries.PathOrderPreorder | backend/database/query_repo.py:15 | ordering by path is total and transitive |
| SymbolQueries.SearchSymbolsByName | backend/database/query_repo.py:8-19 | a permutation of the join's matches, sorted by path |
| SymbolQueries.SearchMembers | backend/database/query_repo.py:10-16 | a result is there exactly when its symbol's name matches and its file row exists |
| SymbolQueries.SearchStable | backend/database/query_repo.py:15 | results with the same path keep the join's order |
| SymbolQueries.FunctionPaths | backend/database/query_repo.py:24-27 | the paths of the joined symbols with kind 'function' |
| SymbolQueries.Dedup | backend/database/query_repo.py:28 | each path once |
| SymbolQueries.Groups | backend/database/query_repo.py:24-28 | one group per path with its count; files with no function have no group |
| SymbolQueries.CountOrderPreorder | backend/database/query_repo.py:29 | ordering by count, descending, is total and transitive |
| SymbolQueries.Limit | backend/database/query_repo.py:30 | LIMIT keeps a prefix of at most limit rows; a negative limit keeps all |
| SymbolQueries.RankedFiles | backend/database/query_repo.py:23-29 | a permutation of the groups, sorted by count, descending |
| SymbolQueries.ListFilesWithMostFunctions | backend/database/query_repo.py:21-34 | at most limit rows (default 10), each with its path's function count (at least 1), counts non-increasing |
| SymbolQueries.RankedCounts | backend/database/query_repo.py:21-34 | every ranked row carries its path's function count, and that count is at least 1 |
| SymbolQueries.ListFilesDistinct | backend/database/query_repo.py:28 | no path appears twice |
| SymbolQueries.ListFilesTop | backend/database/query_repo.py:29-30 | a path left out has no more functions than any path listed |
| SymbolQueries.ListFilesComplete | backend/database/query_repo.py:23-30 | with a large enough limit every path with a function is listed |
| SymbolQueries.DedupShorter | backend/database/query_repo.py:28 | grouping never adds rows |
| TreeSymbols.RFind | backend/database/parser.py:8 | the last position of the character, or -1 |
| TreeSymbols.Extension | backend/database/parser.py:8 | os.path.splitext's extension: empty, or a dot and no further dot or '/', at the end of the path |
| TreeSymbols.LowerAscii | backend/database/parser.py:8 | lowering keeps the length |
| TreeSymbols.GateIgnoresCase | backend/database/parser.py:8-9 | "m.PY" passes the gate |
| TreeSymbols.GateSkipsDotFiles | backend/database/parser.py:8-9 | ".py" has no extension and yields nothing |
| TreeSymbols.DefAncestor | backend/database/parser.py:40-42 | the climb ends at an earlier node |
| TreeSymbols.DefAncestorNearest | backend/database/parser.py:38-44 | the nearest function_definition/class_definition ancestor, or none when there is no such ancestor |
| TreeSymbols.AncestorBelow | backend/database/parser.py:40-42 | ancestors come before their descendants |
| TreeSymbols.SpanOf | backend/database/parser.py:38-48 | the span node is a node of the tree |
| TreeSymbols.SpanNodeForIdentifier | backend/database/parser.py:38-48 | the while loop that climbs parents computes SpanOf |
| TreeSymbols.SpanIncludesDecorators | backend/database/parser.py:45-48 | the span is the def/class node, or its decorated_definition parent, and it contains the identifier |
| TreeSymbols.Lines | backend/database/parser.py:33-35 | the 0-based rows plus 1 |
| TreeSymbols.Slice | backend/database/parser.py:30-31 | src[start_byte:end_byte] |
| TreeSymbols.KindOf | backend/database/parser.py:65-72 | fname/dfname give "function", cname/dcname give "class", anything else nothing |
| TreeSymbols.SymbolOf | backend/database/parser.py:63-72 | a capture yields a symbol exactly when its name is known; the name is the identifier's text and the lines are those of the span node |
| TreeSymbols.SymbolsOf | backend/database/parser.py:62-74 | at most one symbol per capture, each a function or a class |
| TreeSymbols.SymbolsOfAppend | backend/database/parser.py:63-72 | results follow capture order |
| TreeSymbols.DecoratedDefTwice | backend/database/parser.py:51-60 | a decorated def captured by both patterns is reported twice: symbols are not unique |
| TreeSymbols.ParseSymbols | backend/database/parser.py:7-74 | [] for another extension, no parser or an unreadable file; otherwise the symbols of the captures in order |
| FaissIndex.BuildFaissIndex | backend/retrieval/faiss_indexer.py:13-25 | FileNotFoundError exactly without saved embeddings; otherwise an index over them, saved under the name |
| FaissIndex.LoadIndex | backend/retrieval/faiss_indexer.py:28-34 | the saved index when there is one, else a freshly built one |
| FaissIndex.LoadIndexTwice | backend/retrieval/faiss_indexer.py:28-34 | a second load finds the index the first one saved |
| FaissIndex.PickWrapped | backend/retrieval/faiss_indexer.py:49 | as written: one payload per position below len(data), negative ones counted from the end |
| FaissIndex.PickAsWritten | backend/retrieval/faiss_indexer.py:49 | as written: IndexError exactly when a position is below -len(data) |
| FaissIndex.Pick | backend/retrieval/faiss_indexer.py:49 | corrected: only positions 0 <= i < len(data) |
| FaissIndex.PickMembers | backend/retrieval/faiss_indexer.py:49 | corrected: the results are exactly the payloads at real positions |
| FaissIndex.PickHas | backend/retrieval/faiss_indexer.py:49 | corrected: every real position contributes its payload |
| FaissIndex.PickFrom | backend/retrieval/faiss_indexer.py:49 | corrected: every result is the payload at some real position |
| FaissIndex.PickAgrees | backend/retrieval/faiss_indexer.py:49 | with no filler position the code as written and the corrected mapping agree |
| FaissIndex.FillerWrapsToLast | backend/retrieval/faiss_indexer.py:49 | as written, two payloads and three neighbours give the last payload twice |
| FaissIndex.FillerOnEmptyDataRaises | backend/retrieval/faiss_indexer.py:49 | as written, an empty payload list with a filler position raises IndexError |
| FaissIndex.Distances | backend/retrieval/faiss_indexer.py:47-50 | the distances, unfiltered |
| FaissIndex.Positions | backend/retrieval/faiss_indexer.py:47-49 | the reported positions, in order |
| FaissIndex.QueryIndexAsWritten | backend/retrieval/faiss_indexer.py:37-50 | as written: FileNotFoundError without the data file; IndexError exactly when a reported position is below -len(data); otherwise the comprehension's payloads (filler -1 wrapping to the last) and all the distances |
| FaissIndex.QueryIndex | backend/retrieval/faiss_indexer.py:37-50 | corrected: FileNotFoundError without the data file; otherwise the payloads at the real reported positions and all the distances, so len(results) <= len(distances) |
| FaissIndex.QueryIndexAgrees | backend/retrieval/faiss_indexer.py:45-49 | when FAISS reports only real positions, the query as written and the corrected query agree |
| FaissIndex.QueryIndexAtMostTopK | backend/retrieval/faiss_indexer.py:45-50 | when the search returns FAISS's k pairs, both queries return top_k distances and at most top_k payloads |
| QueryScript.LabelCommits | backend/test_query.py:53-54 | every commit hit labelled "commit", in order |
| QueryScript.LabelPrs | backend/test_query.py:55-56 | every PR hit labelled "pr", in order |
| QueryScript.ScoreOrderPreorder | backend/test_query.py:58 | ordering by score, descending, is total and transitive |
| QueryScript.SearchAll | backend/test_query.py:23-59 | [] when either search raises; otherwise the labelled hits, commits then PRs, ranked by score |
| QueryScript.RankedOrder | backend/test_query.py:52-58 | the ranking is a permutation of the labelled hits with non-increasing scores |
| QueryScript.RankedStable | backend/test_query.py:52-58 | equal scores keep the commits-then-PRs order and the order within each group |
| QueryScript.CommitSources | backend/test_query.py:115 | one source per commit hit, in ranking order: the k-th is the document of the k-th commit hit |
| QueryScript.PrSources | backend/test_query.py:116 | one source per PR hit, in ranking order: the k-th is the document of the k-th PR hit |
| QueryScript.FilterLabels | backend/test_query.py:115-116 | splitting by label gives back each group |
| QueryScript.PartitionPermutes | backend/test_query.py:115-116 | splitting the ranking by label gives back the labelled hits of each search, as permutations |
| QueryScript.PartitionRecovers | backend/test_query.py:115-116 | each partition holds exactly its group's hits, in score order |
| QueryScript.CommitSourcesRecover | backend/test_query.py:115 | the commits handed to ask_claude are exactly the documents of the commit search, one per hit |
| QueryScript.PrSourcesRecover | backend/test_query.py:116 | the PRs handed to ask_claude are exactly the documents of the PR search, one per hit |
| QueryScript.ShortHash | backend/test_query.py:73 | the first 7 characters of the hash |
| QueryScript.CommitContext | backend/test_query.py:71-74 | the accumulating loop builds the commit context |
| QueryScript.FileNames | backend/test_query.py:68 | TypeError exactly when a filename is null |
| QueryScript.FileNamesFirstNull | backend/test_query.py:68 | the TypeError names the position of the first null filename ("sequence item k") |
| QueryScript.PrBlock | backend/test_query.py:65-69 | one PR's block fails exactly when one of its filenames is null |
| QueryScript.PrContext | backend/test_query.py:64-69 | the accumulating loop builds the PR context, or raises |
| QueryScript.PrBlocksFails | backend/test_query.py:64-69 | the PR context fails exactly when some PR's block does |
| QueryScript.PrBlocksStep | backend/test_query.py:65-69 | one step of the PR loop |
| QueryScript.ExtractAnswer | backend/test_query.py:100-106 | the first content item's text (or "") when content is non-empty, else completion, else the sentinel |
| QueryScript.AskClaude | backend/test_query.py:61-106 | the answer extracted from the reply to the prompt built from both contexts; a PR context error propagates |
| UnifiedQuery.LoadJson | backend/unified_query.py:21-29 | [] when the file is missing or not valid JSON; otherwise its content |
| UnifiedQuery.NumberedLines | backend/unified_query.py:38-54 | items numbered from 1 in result order, with the 'unknown' and '' defaults |
| UnifiedQuery.Section | backend/unified_query.py:35-54 | a section starts with its title |
| UnifiedQuery.RetrieveContext | backend/unified_query.py:31-56 | the first query that raises ends it; otherwise the sections of the non-empty results joined by blank lines |
| UnifiedQuery.SectionsPresent | backend/unified_query.py:35-54 | a section exactly for each non-empty result list, in the order Functions, Commits, PRs |
| UnifiedQuery.JoinNonEmpty | backend/unified_query.py:56 | a join whose first part is non-empty is non-empty |
| UnifiedQuery.ContextEmpty | backend/unified_query.py:31-56 | the context is "" exactly when all three result lists are empty |
| UnifiedQuery.AskClaude | backend/unified_query.py:58-95 | the stripped first content text, or "Error generating response." on any failure |
| UnifiedQuery.Query | backend/unified_query.py:97-104 | a query error propagates; an empty context is replaced by the notice before asking |
| UnifiedQuery.QueryContextNeverEmpty | backend/unified_query.py:99-101 | the model never sees an empty context |
| EmbeddingGen.Zeros | backend/processors/generate_embeddings.py:50 | the placeholder: 1536 zeros |
| EmbeddingGen.Texts | backend/processors/generate_embeddings.py:41-53 | at most one text per item |
| EmbeddingGen.TextsMembers | backend/processors/generate_embeddings.py:42-53 | a text is embedded exactly when it comes from an item whose text is present and not blank |
| EmbeddingGen.TextsSkip | backend/processors/generate_embeddings.py:51-53 | an item without usable text contributes nothing |
| EmbeddingGen.TextsKeep | backend/processors/generate_embeddings.py:43-50 | an item with text adds it after the earlier ones |
| EmbeddingGen.Successes | backend/processors/generate_embeddings.py:44-47 | valid_count never exceeds the number of texts |
| EmbeddingGen.SuccessesAll | backend/processors/generate_embeddings.py:44-47 | when every call succeeds, every text counts |
| EmbeddingGen.GenerateEmbeddings | backend/processors/generate_embeddings.py:31-63 | one vector per non-blank item, in order, zeros for a failed call; valid_count counts successes and is at most the output length; empty input or no vectors saves nothing |

## Left out

- **Python's `ast` parser, tree-sitter and the regex engine.** These are foreign code. The model takes their results as parameters: a per-template matcher, a parent-linked node list, the captures, and the ast result.
- **Nodes numbered parent-first.** The tree of `TreeSymbols` numbers nodes so that a parent precedes its children. tree-sitter trees have this property, so every climb terminates.
- **I/O and network calls.** Reading and writing files, HTTP requests, git subprocesses, Bedrock, OpenSearch and SQLite connections all become parameters or state fields. Every `print` is left out.
- **Cloning and the entry points.** `clone_repository`, `clone_repo`, `parse_repository_from_url` and the `__main__` blocks are left out. The exception is the partition of hits in `backend/test_query.py:115-116`, which is modelled.
- **`load_json` in `backend/processors/generate_embeddings.py:24-29`.** It is only used by that file's `main`, which is left out.
- **The JSON wire format.** Encoding and decoding are boundaries, and so is the JSON wrapping of request and response bodies. Decoded objects are maps from string keys to strings, or records with an explicit absent/null/present field for the nested objects whose `null` the source treats differently from a missing key. Null leaf values are not modelled; see the lines on them below.
- **The Lambda's HTTP response headers.** They are constant.
- **Floating point.** FAISS search, distances and embeddings are opaque values: the search result is taken as given positions and distances.
- **Configuration constants.** `MAX_COMMITS`, `MAX_PRS` and their page sizes come from a configuration file that is not part of this model. They are parameters, and the page sizes are assumed positive.
- **The SQL schema.** schema.sql is not part of this model. `commit_sha` and `current_path` are taken to be UNIQUE, and `file_id` to be the row count plus one.
- **Tie order in SQL `ORDER BY`.** SQLite leaves the order of ties unspecified. The model keeps ties in join order.
- **Unicode case folding.** `str.lower` in the extension gate and SQLite's `LIKE` are modelled on ASCII letters only. SQLite's default LIKE does the same.
- **Exceptions from the model call in `backend/test_query.py`.** `ask_claude` does not catch them, so the model's `invoke` is total and returns the decoded reply.
- EmbeddingGen.Texts: states only the length bound in its own contract. `EmbeddingGen.TextsMembers`, `TextsSkip` and `TextsKeep` give the content and order.
- FaissIndex.QueryIndex: computes the corrected mapping of positions to payloads (see the Findings row for backend/retrieval/faiss_indexer.py:49); `FaissIndex.QueryIndexAsWritten` is query_index as written, and `FaissIndex.QueryIndexAgrees` shows the two agree whenever FAISS reports no filler position.
- GitHubProcessor.ProcessRepository: parses the URL with the corrected `GitHubProcessor.ExtractRepoInfo`, which removes only a trailing ".git" (see the Findings row for backend/processors/git_processor.py:25). With the parser as written, a repository whose name holds ".git" would be fetched from another repository's endpoints; `GitHubProcessor.AsWrittenListsOtherRepository` shows the commits endpoint each parser requests.
- BedrockLambda.FetchRepoInfo: a JSON null description or language is kept as None by the source and stored as '' by the model; build_context treats both as absent.
- **Null leaf values in the GitHub listings.** In `backend/aws_bedrock_api/lambda_function/lambda_function.py` and `backend/processors/git_processor.py`, a null sha, message, name, email, date, number, title, state, login, ref or URL is stored as None, and nothing is raised. The model types those leaves as `Option<string>` (or `Option<int>`), where None means a missing key. So a null leaf cannot be written: only a missing leaf (a skip in the Lambda, a KeyError in the processor) and a null nested object (TypeError) are modelled.
- GitHubProcessor.CommitRecordOf: does not model a null `sha`, `message`, author or committer `name`/`email`/`date`, or `html_url`, which the source stores as None (backend/processors/git_processor.py:61-76). It also does not model a null `filename` of a patched file, which the source writes as `--- None` (line 88). The model can only express a missing key there.
- GitHubProcessor.PrRecordOf: does not model a null `number`, `title`, `state`, `created_at`, `updated_at`, `login`, `avatar_url`, head or base `ref`/`sha`, `html_url` or `diff_url`, which the source stores as None (backend/processors/git_processor.py:134-158). The model can only express a missing key there (`body`, `closed_at`, `merged_at` and `patch_url` do tell null from missing).
- GitIngest.ParseLogLine: int() is modelled on ASCII digits, so non-ASCII Unicode decimal digits (which Python's int() accepts) are a ValueError in the model. git's `%at` prints only ASCII digits. Text from another field reaches the timestamp only when an author name holds a '|'.

## Findings

| source | as written | input that shows it | evidently intended | confidence | as-written member | corrected member |
|---|---|---|---|---|---|---|
| backend/processors/git_processor.py:25 | `.replace('.git', '')` removes every ".git" in an SSH URL | `git@github.com:o/.gitx` gives repository "x" | remove only the trailing ".git" suffix | not executed | GitHubProcessor.AsWrittenDropsInnerGit | GitHubProcessor.CorrectedKeepsInnerGit |
| backend/retrieval/faiss_indexer.py:49 | `if i < len(data)` keeps FAISS's filler position -1, which Python indexing wraps to the last payload | two payloads, top_k = 3, positions [1, 0, -1] give [b, a, b]; with no payloads, [-1] raises IndexError | keep only 0 <= i < len(data) | not executed | FaissIndex.FillerWrapsToLast | FaissIndex.PickMembers |
