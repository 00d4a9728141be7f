// The vector index around the nearest-neighbour search
// (backend/retrieval/faiss_indexer.py).
//
// The files the module reads and writes are modelled as maps keyed by the
// index name: the saved embeddings (<name>_embeddings.npy), the saved indexes
// (<name>_index.faiss) and the payload lists (<name>.json). The FAISS search
// itself and the query embedding are parameters: the search yields one
// (distance, position) pair per neighbour, with position -1 where FAISS has
// no further neighbour to report.

module FaissIndex {
  import opened Common

  /** A flat L2 index over the vectors it was built from. */
  datatype Index<V> = Index(vectors: seq<V>)

  datatype Files<V, T> = Files(embeddings: map<string, seq<V>>,
                               indexes: map<string, Index<V>>,
                               data: map<string, seq<T>>)

  const MissingEmbeddings: string := "\U{274C} Missing embedding file: "
  const MissingData: string := "Missing data file for "

  function EmbeddingsPath(embeddingsDir: string, name: string): string {
    JoinPath(embeddingsDir, name + "_embeddings.npy")
  }

  function DataPath(dataDir: string, name: string): string {
    JoinPath(dataDir, name + ".json")
  }

  /** build_faiss_index: FileNotFoundError without saved embeddings;
    * otherwise an index over them, which is also saved under the name. */
  function BuildFaissIndex<V, T>(embeddingsDir: string, name: string, fs: Files<V, T>)
    : (r: Result<(Index<V>, Files<V, T>), Exception>)
    ensures name !in fs.embeddings <==> r.Err?
    ensures r.Err? ==> r.error.typeName == "FileNotFoundError"
    ensures r.Ok? ==>
      var (index, fs') := r.value;
      index.vectors == fs.embeddings[name]
      && fs' == fs.(indexes := fs.indexes[name := index])
  {
    if name !in fs.embeddings then
      Err(Exception(MissingEmbeddings + EmbeddingsPath(embeddingsDir, name), "FileNotFoundError"))
    else
      var index := Index(fs.embeddings[name]);
      Ok((index, fs.(indexes := fs.indexes[name := index])))
  }

  /** load_index: the saved index when there is one, else a freshly built one. */
  function LoadIndex<V, T>(embeddingsDir: string, name: string, fs: Files<V, T>)
    : (r: Result<(Index<V>, Files<V, T>), Exception>)
    ensures name in fs.indexes ==> r == Ok((fs.indexes[name], fs))
    ensures name !in fs.indexes ==>
      (r.Err? <==> name !in fs.embeddings)
      && (r.Ok? ==> r.value.0.vectors == fs.embeddings[name] && name in r.value.1.indexes)
  {
    if name !in fs.indexes then BuildFaissIndex(embeddingsDir, name, fs)
    else Ok((fs.indexes[name], fs))
  }

  /** Loading twice builds at most once: the second load finds the index the
    * first one saved. */
  lemma LoadIndexTwice<V, T>(embeddingsDir: string, name: string, fs: Files<V, T>)
    requires LoadIndex(embeddingsDir, name, fs).Ok?
    ensures var (index, fs') := LoadIndex(embeddingsDir, name, fs).value;
      LoadIndex(embeddingsDir, name, fs') == Ok((index, fs'))
  {
  }

  // ------------------------------------------------------------------ positions to payloads

  /** Python's data[i] for -len(data) <= i < len(data). */
  function At<T>(data: seq<T>, i: int): T
    requires -|data| <= i < |data|
  {
    if i >= 0 then data[i] else data[|data| + i]
  }

  /** The comprehension at backend/retrieval/faiss_indexer.py:49 as written:
    * it keeps every position below len(data), negative ones included, and
    * Python's indexing then counts those from the end. */
  function PickWrapped<T>(data: seq<T>, positions: seq<int>): (r: seq<T>)
    requires forall k :: 0 <= k < |positions| ==> positions[k] >= -|data|
    ensures |r| <= |positions|
  {
    if positions == [] then []
    else
      var i := positions[|positions| - 1];
      PickWrapped(data, positions[..|positions| - 1]) + (if i < |data| then [At(data, i)] else [])
  }

  /** The same, with the IndexError a position below -len(data) raises. */
  function PickAsWritten<T>(data: seq<T>, positions: seq<int>): (r: Result<seq<T>, Exception>)
    ensures r.Err? <==> exists k :: 0 <= k < |positions| && positions[k] < -|data|
    ensures r.Ok? ==> |r.value| <= |positions|
  {
    if exists k :: 0 <= k < |positions| && positions[k] < -|data| then
      Err(Exception("list index out of range", "IndexError"))
    else Ok(PickWrapped(data, positions))
  }

  /** The evidently intended mapping: only real positions, 0 <= i < len(data). */
  function Pick<T>(data: seq<T>, positions: seq<int>): (r: seq<T>)
    ensures |r| <= |positions|
  {
    if positions == [] then []
    else
      var i := positions[|positions| - 1];
      Pick(data, positions[..|positions| - 1]) + (if 0 <= i < |data| then [data[i]] else [])
  }

  /** One step of Pick: the last position adds its payload when it is real. */
  lemma PickSnoc<T>(data: seq<T>, positions: seq<int>)
    requires positions != []
    ensures var i := positions[|positions| - 1];
      Pick(data, positions) == Pick(data, positions[..|positions| - 1]) + (if 0 <= i < |data| then [data[i]] else [])
  {
  }

  /** Every real position contributes its payload. */
  lemma {:induction false} PickHas<T>(data: seq<T>, positions: seq<int>, k: nat)
    requires k < |positions| && 0 <= positions[k] < |data|
    ensures data[positions[k]] in Pick(data, positions)
    decreases |positions|
  {
    var n := |positions| - 1;
    var init := positions[..n];
    PickSnoc(data, positions);
    if k < n {
      assert init[k] == positions[k];
      PickHas(data, init, k);
    }
  }

  /** Every result is the payload at some real position. */
  lemma {:induction false} PickFrom<T>(data: seq<T>, positions: seq<int>, x: T)
    requires x in Pick(data, positions)
    ensures exists k :: 0 <= k < |positions| && 0 <= positions[k] < |data| && data[positions[k]] == x
    decreases |positions|
  {
    var n := |positions| - 1;
    var init := positions[..n];
    PickSnoc(data, positions);
    if x in Pick(data, init) {
      PickFrom(data, init, x);
      var k :| 0 <= k < |init| && 0 <= init[k] < |data| && data[init[k]] == x;
      assert init[k] == positions[k];
    } else {
      assert 0 <= positions[n] < |data| && data[positions[n]] == x;
    }
  }

  /** Every result is the payload at some real position, and every real
    * position contributes its payload. */
  lemma PickMembers<T>(data: seq<T>, positions: seq<int>, x: T)
    ensures x in Pick(data, positions) <==>
      exists k :: 0 <= k < |positions| && 0 <= positions[k] < |data| && data[positions[k]] == x
  {
    if x in Pick(data, positions) {
      PickFrom(data, positions, x);
    }
    if exists k :: 0 <= k < |positions| && 0 <= positions[k] < |data| && data[positions[k]] == x {
      var k :| 0 <= k < |positions| && 0 <= positions[k] < |data| && data[positions[k]] == x;
      PickHas(data, positions, k);
    }
  }

  /** When FAISS reports only real positions, the code as written and the
    * intended mapping agree. */
  lemma {:induction false} PickAgrees<T>(data: seq<T>, positions: seq<int>)
    requires forall k :: 0 <= k < |positions| ==> positions[k] >= 0
    ensures PickAsWritten(data, positions) == Ok(Pick(data, positions))
    ensures PickWrapped(data, positions) == Pick(data, positions)
    decreases |positions|
  {
    if positions != [] {
      var init := positions[..|positions| - 1];
      assert forall k :: 0 <= k < |init| ==> init[k] == positions[k];
      PickAgrees(data, init);
    }
  }

  /** With two payloads and three neighbours asked for, FAISS pads with -1;
    * the code as written returns the last payload twice, the intended
    * mapping does not. */
  lemma FillerWrapsToLast<T>(a: T, b: T)
    ensures PickAsWritten([a, b], [1, 0, -1]) == Ok([b, a, b])
    ensures Pick([a, b], [1, 0, -1]) == [b, a]
  {
    var ps := [1, 0, -1];
    assert ps[..2] == [1, 0] && ps[..2][..1] == [1] && ps[..2][..1][..0] == [];
    assert PickWrapped([a, b], [1]) == [b];
    assert PickWrapped([a, b], [1, 0]) == [b, a];
    assert At([a, b], -1) == b;
    assert PickWrapped([a, b], ps) == [b, a] + [b];
    assert !exists k :: 0 <= k < |ps| && ps[k] < -2;
    assert [b, a] + [b] == [b, a, b];
    assert PickAsWritten([a, b], ps) == Ok(PickWrapped([a, b], ps));
    assert Pick([a, b], [1]) == [b];
    assert Pick([a, b], [1, 0]) == [b, a];
  }

  /** With no payloads at all, the filler position makes the code as written
    * raise IndexError. */
  lemma FillerOnEmptyDataRaises<T>()
    ensures var none: seq<T> := []; PickAsWritten(none, [-1]).Err? && Pick(none, [-1]) == []
  {
    var ps := [-1];
    assert ps[..0] == [];
  }

  // ------------------------------------------------------------------ query_index

  datatype QueryOut<V, T> = QueryOut(results: seq<T>, distances: seq<real>, files: Files<V, T>)

  function Distances(hits: seq<(real, int)>): (r: seq<real>)
    ensures |r| == |hits| && forall k :: 0 <= k < |r| ==> r[k] == hits[k].0
  {
    seq(|hits|, k requires 0 <= k < |hits| => hits[k].0)
  }

  function Positions(hits: seq<(real, int)>): (r: seq<int>)
    ensures |r| == |hits| && forall k :: 0 <= k < |r| ==> r[k] == hits[k].1
  {
    seq(|hits|, k requires 0 <= k < |hits| => hits[k].1)
  }

  /** query_index as written: FileNotFoundError without the payload file;
    * otherwise the index is loaded (or built), searched for the embedded
    * query, and the comprehension at line 49 maps the reported positions,
    * FAISS's filler -1 included, to payloads (see PickAsWritten). */
  function QueryIndexAsWritten<V, T>(dataDir: string, embeddingsDir: string, name: string, queryText: string,
                                     topK: nat, fs: Files<V, T>, embed: string -> V,
                                     search: (Index<V>, V, nat) -> seq<(real, int)>)
    : (r: Result<QueryOut<V, T>, Exception>)
    ensures name !in fs.data ==> r.Err? && r.error.typeName == "FileNotFoundError"
    ensures r.Ok? ==>
      LoadIndex(embeddingsDir, name, fs).Ok? &&
      var index := LoadIndex(embeddingsDir, name, fs).value.0;
      var hits := search(index, embed(queryText), topK);
      PickAsWritten(fs.data[name], Positions(hits)).Ok?
      && r.value.results == PickAsWritten(fs.data[name], Positions(hits)).value
      && r.value.distances == Distances(hits)
      && |r.value.results| <= |r.value.distances|
    ensures name in fs.data && LoadIndex(embeddingsDir, name, fs).Ok? ==>
      var hits := search(LoadIndex(embeddingsDir, name, fs).value.0, embed(queryText), topK);
      (r.Err? <==> exists k :: 0 <= k < |hits| && hits[k].1 < -|fs.data[name]|)
  {
    if name !in fs.data then
      Err(Exception(MissingData + name + ": " + DataPath(dataDir, name), "FileNotFoundError"))
    else
      match LoadIndex(embeddingsDir, name, fs)
      case Err(e) => Err(e)
      case Ok((index, fs')) =>
        var hits := search(index, embed(queryText), topK);
        match PickAsWritten(fs.data[name], Positions(hits))
        case Err(e) => Err(e)
        case Ok(results) => Ok(QueryOut(results, Distances(hits), fs'))
  }

  /** query_index with the corrected mapping: FileNotFoundError without the
    * payload file; otherwise the payloads at the real reported positions
    * come back with all distances. */
  function QueryIndex<V, T>(dataDir: string, embeddingsDir: string, name: string, queryText: string,
                            topK: nat, fs: Files<V, T>, embed: string -> V,
                            search: (Index<V>, V, nat) -> seq<(real, int)>)
    : (r: Result<QueryOut<V, T>, Exception>)
    ensures name !in fs.data ==> r.Err? && r.error.typeName == "FileNotFoundError"
    ensures name in fs.data && (name in fs.indexes || name in fs.embeddings) ==> r.Ok?
    ensures r.Ok? ==>
      LoadIndex(embeddingsDir, name, fs).Ok? &&
      var index := LoadIndex(embeddingsDir, name, fs).value.0;
      var hits := search(index, embed(queryText), topK);
      r.value.distances == Distances(hits)
      && r.value.results == Pick(fs.data[name], Positions(hits))
      && |r.value.results| <= |r.value.distances|
  {
    if name !in fs.data then
      Err(Exception(MissingData + name + ": " + DataPath(dataDir, name), "FileNotFoundError"))
    else
      match LoadIndex(embeddingsDir, name, fs)
      case Err(e) => Err(e)
      case Ok((index, fs')) =>
        var hits := search(index, embed(queryText), topK);
        Ok(QueryOut(Pick(fs.data[name], Positions(hits)), Distances(hits), fs'))
  }

  /** FAISS's index.search(q, k) answers with one row of exactly k
    * (distance, position) pairs, filler included. With that result shape,
    * both queries return all top_k distances and at most top_k payloads. */
  lemma QueryIndexAtMostTopK<V, T>(dataDir: string, embeddingsDir: string, name: string, queryText: string,
                                   topK: nat, fs: Files<V, T>, embed: string -> V,
                                   search: (Index<V>, V, nat) -> seq<(real, int)>)
    requires forall index: Index<V> :: |search(index, embed(queryText), topK)| == topK
    ensures var r := QueryIndexAsWritten(dataDir, embeddingsDir, name, queryText, topK, fs, embed, search);
      r.Ok? ==> |r.value.results| <= topK && |r.value.distances| == topK
    ensures var r := QueryIndex(dataDir, embeddingsDir, name, queryText, topK, fs, embed, search);
      r.Ok? ==> |r.value.results| <= topK && |r.value.distances| == topK
  {
    if name in fs.data && LoadIndex(embeddingsDir, name, fs).Ok? {
      var hits := search(LoadIndex(embeddingsDir, name, fs).value.0, embed(queryText), topK);
      assert |hits| == topK;
    }
  }

  /** When FAISS reports only real positions (it found top_k neighbours), the
    * query as written and the corrected query give the same answer. */
  lemma QueryIndexAgrees<V, T>(dataDir: string, embeddingsDir: string, name: string, queryText: string,
                               topK: nat, fs: Files<V, T>, embed: string -> V,
                               search: (Index<V>, V, nat) -> seq<(real, int)>)
    requires name in fs.data && LoadIndex(embeddingsDir, name, fs).Ok?
    requires var hits := search(LoadIndex(embeddingsDir, name, fs).value.0, embed(queryText), topK);
      forall k :: 0 <= k < |hits| ==> hits[k].1 >= 0
    ensures QueryIndexAsWritten(dataDir, embeddingsDir, name, queryText, topK, fs, embed, search)
            == QueryIndex(dataDir, embeddingsDir, name, queryText, topK, fs, embed, search)
  {
    var hits := search(LoadIndex(embeddingsDir, name, fs).value.0, embed(queryText), topK);
    PickAgrees(fs.data[name], Positions(hits));
  }
}
