// Symbol extraction from a Python syntax tree (backend/database/parser.py).
//
// The tree-sitter parser and its query engine are foreign: the model takes
// the parsed tree as a sequence of nodes linked to their parents, and the
// query's captures as a list of (node, capture name) pairs in the order the
// engine reports them. Nodes are numbered so that a parent comes before its
// children, which makes every climb towards the root finite.

module TreeSymbols {
  import opened Common

  // ------------------------------------------------------------------ extension gate

  /** The index of the last `c` in `s`, or -1 (Python's str.rfind). */
  function RFind(s: string, c: char): (r: int)
    ensures -1 <= r < |s|
    ensures r >= 0 ==> s[r] == c
    ensures forall k :: r < k < |s| ==> s[k] != c
  {
    if s == [] then -1
    else if s[|s| - 1] == c then |s| - 1
    else RFind(s[..|s| - 1], c)
  }

  /** Some character of s[lo..hi] is not a dot. */
  predicate HasNonDot(s: string, lo: int, hi: int) {
    exists k :: lo <= k < hi && 0 <= k < |s| && s[k] != '.'
  }

  /** os.path.splitext(path)[1] on POSIX: from the last dot of the last path
    * component, unless every character before that dot in the component is
    * a dot too (so ".bashrc" has no extension). */
  function Extension(path: string): (r: string)
    ensures r == [] || (r[0] == '.' && EndsWith(path, r) && '/' !in r && '.' !in r[1..])
  {
    var sepIndex := RFind(path, '/');
    var dotIndex := RFind(path, '.');
    if dotIndex > sepIndex && HasNonDot(path, sepIndex + 1, dotIndex) then
      var r := path[dotIndex..];
      assert forall k :: 0 <= k < |r| ==> r[k] == path[dotIndex + k];
      r
    else []
  }

  /** str.lower() as far as the comparison with ".py" and ".pyi" can see:
    * no character other than 'P', 'Y' and 'I' lowers to 'p', 'y' or 'i'. */
  function LowerAscii(s: string): (r: string)
    ensures |r| == |s|
  {
    seq(|s|, k requires 0 <= k < |s| => AsciiLower(s[k]))
  }

  predicate PythonFile(path: string) {
    LowerAscii(Extension(path)) in {".py", ".pyi"}
  }

  /** The gate compares the extension without regard to ASCII case. */
  lemma GateIgnoresCase()
    ensures PythonFile("m.PY")
  {
    assert RFind("m.PY", '.') == 1 && RFind("m.PY", '/') == -1;
    assert "m.PY"[0] != '.';
    assert "m.PY"[1..] == ".PY";
    assert LowerAscii(".PY") == ".py";
  }

  /** A leading dot does not start an extension. */
  lemma GateSkipsDotFiles()
    ensures !PythonFile(".py")
  {
    assert RFind(".py", '.') == 0;
  }

  // ------------------------------------------------------------------ the tree

  /** A syntax node: its grammar type, its parent, its 0-based start and end
    * rows and its byte range in the source. */
  datatype Node = Node(kind: string, parent: Option<nat>, startRow: nat, endRow: nat,
                       startByte: nat, endByte: nat)

  /** Every parent is an earlier node. */
  predicate WellFormed(tree: seq<Node>) {
    forall i :: 0 <= i < |tree| && tree[i].parent.Some? ==> tree[i].parent.value < i
  }

  predicate IsDef(n: Node) {
    n.kind == "function_definition" || n.kind == "class_definition"
  }

  /** `a` is a proper ancestor of `i`. */
  ghost predicate IsAncestor(tree: seq<Node>, a: nat, i: nat)
    requires WellFormed(tree) && i < |tree|
    decreases i
  {
    tree[i].parent.Some? &&
    (tree[i].parent.value == a || IsAncestor(tree, a, tree[i].parent.value))
  }

  /** The nearest def/class node strictly above node `i`, if any. */
  function DefAncestor(tree: seq<Node>, i: nat): (r: Option<nat>)
    requires WellFormed(tree) && i < |tree|
    ensures r.Some? ==> r.value < i
    decreases i
  {
    match tree[i].parent
    case None => None
    case Some(p) => if IsDef(tree[p]) then Some(p) else DefAncestor(tree, p)
  }

  /** DefAncestor finds a def/class ancestor, the nearest one (the parent
    * links number ancestors nearer `i` higher), and finds none only when no
    * ancestor is a def or class. */
  lemma {:induction false} DefAncestorNearest(tree: seq<Node>, i: nat)
    requires WellFormed(tree) && i < |tree|
    ensures DefAncestor(tree, i).Some? ==>
      var d := DefAncestor(tree, i).value;
      IsDef(tree[d]) && IsAncestor(tree, d, i) &&
      forall a :: d < a < |tree| && IsAncestor(tree, a, i) ==> !IsDef(tree[a])
    ensures DefAncestor(tree, i).None? ==>
      forall a :: 0 <= a < |tree| && IsAncestor(tree, a, i) ==> !IsDef(tree[a])
    decreases i
  {
    if tree[i].parent.Some? {
      var p := tree[i].parent.value;
      DefAncestorNearest(tree, p);
      forall a | 0 <= a < |tree| && IsAncestor(tree, a, i) && a != p
        ensures IsAncestor(tree, a, p)
      {
      }
      forall a | p < a < |tree|
        ensures !IsAncestor(tree, a, i)
      {
        AncestorBelow(tree, a, p);
      }
    }
  }

  /** Ancestors come earlier than their descendants. */
  lemma {:induction false} AncestorBelow(tree: seq<Node>, a: nat, i: nat)
    requires WellFormed(tree) && i < |tree|
    ensures IsAncestor(tree, a, i) ==> a < i
    decreases i
  {
    if tree[i].parent.Some? {
      AncestorBelow(tree, a, tree[i].parent.value);
    }
  }

  /** The node whose rows give the symbol's span. */
  function SpanOf(tree: seq<Node>, id: nat): (r: nat)
    requires WellFormed(tree) && id < |tree|
    ensures r < |tree|
  {
    match DefAncestor(tree, id)
    case None => id
    case Some(d) =>
      match tree[d].parent
      case Some(p) => if tree[p].kind == "decorated_definition" then p else d
      case None => d
  }

  /** span_node_for_identifier: climb the parent links to the first def or
    * class node; widen to a decorated_definition parent; without a def or
    * class above, fall back to the identifier itself. */
  method SpanNodeForIdentifier(tree: seq<Node>, id: nat) returns (r: nat)
    requires WellFormed(tree) && id < |tree|
    ensures r == SpanOf(tree, id)
  {
    var n: Option<nat> := tree[id].parent;
    while n.Some? && !IsDef(tree[n.value])
      invariant n.Some? ==> n.value < |tree|
      invariant DefAncestor(tree, id) == (if n.None? then None
                                          else if IsDef(tree[n.value]) then n
                                          else DefAncestor(tree, n.value))
      decreases if n.Some? then n.value + 1 else 0
    {
      n := tree[n.value].parent;
    }
    if n.None? {
      return id;
    }
    var d := n.value;
    if tree[d].parent.Some? && tree[tree[d].parent.value].kind == "decorated_definition" {
      return tree[d].parent.value;
    }
    return d;
  }

  /** The span a decorated def gets: its decorated_definition parent. */
  lemma SpanIncludesDecorators(tree: seq<Node>, id: nat)
    requires WellFormed(tree) && id < |tree|
    requires DefAncestor(tree, id).Some?
    ensures var d := DefAncestor(tree, id).value;
      SpanOf(tree, id) == d ||
      (SpanOf(tree, id) == tree[d].parent.value && tree[SpanOf(tree, id)].kind == "decorated_definition")
    ensures IsAncestor(tree, SpanOf(tree, id), id)
  {
    DefAncestorNearest(tree, id);
  }

  /** lines(n): tree-sitter's 0-based rows as 1-based line numbers. */
  function Lines(n: Node): (r: (nat, nat))
    ensures r.0 >= 1 && r.1 >= 1
    ensures r.0 - 1 == n.startRow && r.1 - 1 == n.endRow
  {
    (n.startRow + 1, n.endRow + 1)
  }

  /** Python's bytes slice src[a:b] for non-negative bounds. */
  function Slice(src: seq<bv8>, a: nat, b: nat): (r: seq<bv8>)
    ensures |r| <= |src|
    ensures a <= b <= |src| ==> r == src[a..b]
  {
    var lo := if a <= |src| then a else |src|;
    var hi := if b <= |src| then b else |src|;
    if lo <= hi then src[lo..hi] else []
  }

  // ------------------------------------------------------------------ parse_symbols

  /** One symbol: (kind, name, start_line, end_line). */
  datatype PySymbol = PySymbol(kind: string, name: string, startLine: nat, endLine: nat)

  datatype Capture = Capture(node: nat, name: string)

  predicate CapturesIn(tree: seq<Node>, caps: seq<Capture>) {
    forall k :: 0 <= k < |caps| ==> caps[k].node < |tree|
  }

  /** The kind a capture name stands for, if any. */
  function KindOf(capName: string): (r: Option<string>)
    ensures r == Some("function") <==> capName in {"fname", "dfname"}
    ensures r == Some("class") <==> capName in {"cname", "dcname"}
    ensures r.Some? ==> r.value in {"function", "class"}
  {
    if capName in {"fname", "dfname"} then Some("function")
    else if capName in {"cname", "dcname"} then Some("class")
    else None
  }

  /** The symbol one capture yields. */
  function SymbolOf(tree: seq<Node>, src: seq<bv8>, decode: seq<bv8> -> string, c: Capture)
    : (r: Option<PySymbol>)
    requires WellFormed(tree) && c.node < |tree|
    ensures r.Some? <==> KindOf(c.name).Some?
    ensures r.Some? ==>
      && r.value.kind == KindOf(c.name).value
      && r.value.name == decode(Slice(src, tree[c.node].startByte, tree[c.node].endByte))
      && (r.value.startLine, r.value.endLine) == Lines(tree[SpanOf(tree, c.node)])
  {
    match KindOf(c.name)
    case None => None
    case Some(kind) =>
      var (s, e) := Lines(tree[SpanOf(tree, c.node)]);
      Some(PySymbol(kind, decode(Slice(src, tree[c.node].startByte, tree[c.node].endByte)), s, e))
  }

  /** The symbols of a capture list, in capture order. */
  function SymbolsOf(tree: seq<Node>, src: seq<bv8>, decode: seq<bv8> -> string, caps: seq<Capture>)
    : (r: seq<PySymbol>)
    requires WellFormed(tree) && CapturesIn(tree, caps)
    ensures |r| <= |caps|
    ensures forall k :: 0 <= k < |r| ==> r[k].kind in {"function", "class"}
  {
    if caps == [] then []
    else
      var last := caps[|caps| - 1];
      SymbolsOf(tree, src, decode, caps[..|caps| - 1])
        + (match SymbolOf(tree, src, decode, last) case Some(sym) => [sym] case None => [])
  }

  /** Every capture with a recognised name yields exactly one symbol, and the
    * others yield none. */
  lemma {:induction false} SymbolsOfAppend(tree: seq<Node>, src: seq<bv8>, decode: seq<bv8> -> string,
                                           caps: seq<Capture>, more: seq<Capture>)
    requires WellFormed(tree) && CapturesIn(tree, caps) && CapturesIn(tree, more)
    ensures CapturesIn(tree, caps + more)
    ensures SymbolsOf(tree, src, decode, caps + more)
         == SymbolsOf(tree, src, decode, caps) + SymbolsOf(tree, src, decode, more)
    decreases |more|
  {
    if more != [] {
      var all := caps + more;
      var init := more[..|more| - 1];
      assert all[..|all| - 1] == caps + init;
      assert all[|all| - 1] == more[|more| - 1];
      SymbolsOfAppend(tree, src, decode, caps, init);
    } else {
      assert caps + more == caps;
    }
  }

  /** A decorated def can be captured both as @fname and as @dfname; both
    * captures yield the same symbol, so symbols are not unique. */
  lemma DecoratedDefTwice(tree: seq<Node>, src: seq<bv8>, decode: seq<bv8> -> string, id: nat)
    requires WellFormed(tree) && id < |tree|
    ensures var syms := SymbolsOf(tree, src, decode, [Capture(id, "fname"), Capture(id, "dfname")]);
      |syms| == 2 && syms[0] == syms[1]
  {
    var caps := [Capture(id, "fname"), Capture(id, "dfname")];
    assert caps[..1] == [Capture(id, "fname")];
    assert caps[..1][..0] == [];
  }

  /** parse_symbols: [] for a non-Python file, when the parser is not
    * available or when the file cannot be read; otherwise one symbol per
    * capture with a recognised name, in capture order. `src` is the file's
    * bytes if it could be read; `tree` and `caps` are what the parser and
    * the query make of them. */
  method ParseSymbols(filePath: string, parserAvailable: bool, src: Option<seq<bv8>>,
                      tree: seq<Node>, caps: seq<Capture>, decode: seq<bv8> -> string)
    returns (results: seq<PySymbol>)
    requires WellFormed(tree) && CapturesIn(tree, caps)
    ensures !PythonFile(filePath) || !parserAvailable || src.None? ==> results == []
    ensures PythonFile(filePath) && parserAvailable && src.Some? ==>
      results == SymbolsOf(tree, src.value, decode, caps)
  {
    if !PythonFile(filePath) || !parserAvailable || src.None? {
      return [];
    }
    var bytes := src.value;
    results := [];
    var i := 0;
    while i < |caps|
      invariant 0 <= i <= |caps|
      invariant results == SymbolsOf(tree, bytes, decode, caps[..i])
    {
      var c := caps[i];
      assert caps[..i + 1][..i] == caps[..i];
      if c.name in {"fname", "dfname"} {
        var spanNode := SpanNodeForIdentifier(tree, c.node);
        var (s, e) := Lines(tree[spanNode]);
        results := results + [PySymbol("function", decode(Slice(bytes, tree[c.node].startByte, tree[c.node].endByte)), s, e)];
      } else if c.name in {"cname", "dcname"} {
        var spanNode := SpanNodeForIdentifier(tree, c.node);
        var (s, e) := Lines(tree[spanNode]);
        results := results + [PySymbol("class", decode(Slice(bytes, tree[c.node].startByte, tree[c.node].endByte)), s, e)];
      }
      i := i + 1;
    }
    assert caps[..|caps|] == caps;
  }
}
