// Retrieval-augmented answering over the FAISS indexes
// (backend/unified_query.py): the top hits of the "functions", "commits" and
// "prs" indexes become labelled, numbered context sections, and the model
// answers the question from them.
//
// The three index queries are given by their outcome (a payload list, or
// the exception query_index raised; see FaissIndex.QueryIndex), and the
// model call by its decoded reply, or None when the call or the decoding
// raised. Payload items are JSON objects with string members.

module UnifiedQuery {
  import opened Common
  import opened QueryScript

  type Item = map<string, string>

  /** load_json: [] when the file is missing or does not decode; `decoded`
    * is the file's decoded content, None when it is not valid JSON. */
  function LoadJson(exists_: bool, decoded: Option<seq<Item>>): (r: seq<Item>)
    ensures !exists_ || decoded.None? ==> r == []
    ensures exists_ && decoded.Some? ==> r == decoded.value
  {
    if !exists_ then [] else decoded.GetOr([])
  }

  /** item.get(key, default) */
  function Get(item: Item, key: string, default: string): string {
    if key in item then item[key] else default
  }

  // ------------------------------------------------------------------ retrieve_context

  /** How each section shows one item. */
  datatype SectionKind = Functions | Commits | Prs

  function Title(kind: SectionKind): string {
    match kind
    case Functions => "Functions"
    case Commits => "Commits"
    case Prs => "PRs"
  }

  function ItemText(kind: SectionKind, item: Item): string {
    match kind
    case Functions => Get(item, "name", "unknown") + ": " + Get(item, "code", "")
    case Commits => Get(item, "message", "")
    case Prs => Get(item, "title", "")
  }

  /** The lines of a section: items numbered from 1, in result order. */
  function NumberedLines(kind: SectionKind, items: seq<Item>): (r: seq<string>)
    ensures |r| == |items|
    ensures forall i :: 0 <= i < |r| ==> r[i] == IntToString(i + 1) + ". " + ItemText(kind, items[i])
  {
    seq(|items|, i requires 0 <= i < |items| => IntToString(i + 1) + ". " + ItemText(kind, items[i]))
  }

  function Section(kind: SectionKind, items: seq<Item>): (r: string)
    ensures StartsWith(r, Title(kind) + ":\n")
  {
    var head := Title(kind) + ":\n";
    var r := head + Join(NumberedLines(kind, items), "\n");
    assert r[..|head|] == head;
    r
  }

  /** The sections retrieve_context collects: one per non-empty result list,
    * in the order functions, commits, PRs. */
  function Sections(funcs: seq<Item>, commits: seq<Item>, prs: seq<Item>): seq<string> {
    (if funcs != [] then [Section(Functions, funcs)] else [])
      + (if commits != [] then [Section(Commits, commits)] else [])
      + (if prs != [] then [Section(Prs, prs)] else [])
  }

  /** The context: the sections joined by blank lines. */
  function ContextOf(funcs: seq<Item>, commits: seq<Item>, prs: seq<Item>): string {
    Join(Sections(funcs, commits, prs), "\n\n")
  }

  /** retrieve_context: queries the three indexes in turn (the first one to
    * raise ends it) and appends a section for each non-empty result. */
  method RetrieveContext(funcsQuery: Result<seq<Item>, Exception>, commitsQuery: Result<seq<Item>, Exception>,
                         prsQuery: Result<seq<Item>, Exception>)
    returns (r: Result<string, Exception>)
    ensures funcsQuery.Err? ==> r == Err(funcsQuery.error)
    ensures funcsQuery.Ok? && commitsQuery.Err? ==> r == Err(commitsQuery.error)
    ensures funcsQuery.Ok? && commitsQuery.Ok? && prsQuery.Err? ==> r == Err(prsQuery.error)
    ensures funcsQuery.Ok? && commitsQuery.Ok? && prsQuery.Ok? ==>
      r == Ok(ContextOf(funcsQuery.value, commitsQuery.value, prsQuery.value))
  {
    var sections: seq<string> := [];
    if funcsQuery.Err? {
      return Err(funcsQuery.error);
    }
    if funcsQuery.value != [] {
      sections := sections + [Section(Functions, funcsQuery.value)];
    }
    if commitsQuery.Err? {
      return Err(commitsQuery.error);
    }
    if commitsQuery.value != [] {
      sections := sections + [Section(Commits, commitsQuery.value)];
    }
    if prsQuery.Err? {
      return Err(prsQuery.error);
    }
    if prsQuery.value != [] {
      sections := sections + [Section(Prs, prsQuery.value)];
    }
    assert sections == Sections(funcsQuery.value, commitsQuery.value, prsQuery.value);
    return Ok(Join(sections, "\n\n"));
  }

  /** Each section is there exactly when its results are, with its title, in
    * the fixed order. */
  lemma SectionsPresent(funcs: seq<Item>, commits: seq<Item>, prs: seq<Item>)
    ensures var s := Sections(funcs, commits, prs);
      |s| == (if funcs != [] then 1 else 0) + (if commits != [] then 1 else 0) + (if prs != [] then 1 else 0)
      && (funcs != [] ==> StartsWith(s[0], "Functions:\n"))
      && (commits != [] ==> StartsWith(s[if funcs != [] then 1 else 0], "Commits:\n"))
      && (prs != [] ==> StartsWith(s[|s| - 1], "PRs:\n"))
  {
    var a := Sections(funcs, commits, prs);
    if funcs != [] {
      assert a[0] == Section(Functions, funcs);
    }
    if commits != [] {
      assert a[if funcs != [] then 1 else 0] == Section(Commits, commits);
    }
    if prs != [] {
      assert a[|a| - 1] == Section(Prs, prs);
    }
  }

  /** A join whose first part is non-empty is non-empty. */
  lemma {:induction false} JoinNonEmpty(parts: seq<string>, sep: string)
    requires parts != [] && parts[0] != []
    ensures Join(parts, sep) != []
  {
    if |parts| > 1 {
      assert Join(parts, sep) == parts[0] + sep + Join(parts[1..], sep);
    }
  }

  /** The context is empty exactly when all three result lists are. */
  lemma ContextEmpty(funcs: seq<Item>, commits: seq<Item>, prs: seq<Item>)
    ensures ContextOf(funcs, commits, prs) == "" <==> funcs == [] && commits == [] && prs == []
  {
    var s := Sections(funcs, commits, prs);
    SectionsPresent(funcs, commits, prs);
    if s != [] {
      assert |s[0]| > 0;
      JoinNonEmpty(s, "\n\n");
    }
  }

  // ------------------------------------------------------------------ ask_claude and query

  const NoContext: string := "No relevant repository context found."
  const ErrorAnswer: string := "Error generating response."
  const PromptHead: string :=
    "You are a helpful software assistant. Use the following repository context to answer the user's question.\n\nContext:\n"

  function Prompt(queryText: string, contextText: string): string {
    PromptHead + contextText + "\n\nQuestion:\n" + queryText + "\n\nAnswer:"
  }

  /** ask_claude: the stripped text of the first content item; any failure
    * on the way (the call, no content, no text) gives a fixed sentinel. */
  function AskClaude(queryText: string, contextText: string, invoke: string -> Option<ModelReply>)
    : (r: string)
    ensures var reply := invoke(Prompt(queryText, contextText));
      if reply.Some? && reply.value.content.Some? && reply.value.content.value != []
         && reply.value.content.value[0].text.Some?
      then r == Strip(reply.value.content.value[0].text.value)
      else r == ErrorAnswer
  {
    match invoke(Prompt(queryText, contextText))
    case None => ErrorAnswer
    case Some(reply) =>
      if reply.content.None? || reply.content.value == [] then ErrorAnswer
      else match reply.content.value[0].text
        case None => ErrorAnswer
        case Some(text) => Strip(text)
  }

  /** query: an empty context is replaced by a fixed notice before asking. */
  method Query(queryText: string, funcsQuery: Result<seq<Item>, Exception>,
               commitsQuery: Result<seq<Item>, Exception>, prsQuery: Result<seq<Item>, Exception>,
               invoke: string -> Option<ModelReply>)
    returns (r: Result<string, Exception>)
    ensures funcsQuery.Ok? && commitsQuery.Ok? && prsQuery.Ok? ==>
      var ctx := ContextOf(funcsQuery.value, commitsQuery.value, prsQuery.value);
      r == Ok(AskClaude(queryText, if ctx == "" then NoContext else ctx, invoke))
    ensures r.Err? <==> funcsQuery.Err? || commitsQuery.Err? || prsQuery.Err?
  {
    var context := RetrieveContext(funcsQuery, commitsQuery, prsQuery);
    if context.Err? {
      return Err(context.error);
    }
    var contextText := context.value;
    if contextText == "" {
      contextText := NoContext;
    }
    return Ok(AskClaude(queryText, contextText, invoke));
  }

  /** The model never sees an empty context: with no results at all it gets
    * the notice instead. */
  lemma QueryContextNeverEmpty(funcs: seq<Item>, commits: seq<Item>, prs: seq<Item>)
    ensures var ctx := ContextOf(funcs, commits, prs);
      (if ctx == "" then NoContext else ctx) != ""
    ensures funcs == [] && commits == [] && prs == [] ==>
      var ctx := ContextOf(funcs, commits, prs);
      (if ctx == "" then NoContext else ctx) == NoContext
  {
    ContextEmpty(funcs, commits, prs);
  }
}
