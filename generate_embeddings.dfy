// Embedding generation for the saved payload lists
// (backend/processors/generate_embeddings.py).
//
// The embedding service is a parameter: it yields a vector, or None when the
// call raised. The .npy file written is returned as the saved array, or None
// when nothing was written.

module EmbeddingGen {
  import opened Common

  type Vector = seq<real>

  /** item.get(text_key) for a payload item whose members are strings. */
  type Item = map<string, string>

  /** The width of the model's vectors, and of the stand-in for a failure. */
  const Dimension: nat := 1536

  function Zeros(n: nat): (r: Vector)
    ensures |r| == n && forall k :: 0 <= k < n ==> r[k] == 0.0
  {
    seq(n, _ => 0.0)
  }

  /** `text and text.strip()`: present, and not only whitespace. */
  predicate HasText(item: Item, key: string) {
    key in item && Strip(item[key]) != []
  }

  /** The texts that get embedded, in input order. */
  function Texts(data: seq<Item>, key: string): (r: seq<string>)
    ensures |r| <= |data|
  {
    if data == [] then []
    else
      var last := data[|data| - 1];
      Texts(data[..|data| - 1], key) + (if HasText(last, key) then [last[key]] else [])
  }

  /** Every text embedded comes from an item with text, and every item with
    * text is embedded. */
  lemma {:induction false} TextsMembers(data: seq<Item>, key: string, t: string)
    ensures t in Texts(data, key) <==> exists j :: 0 <= j < |data| && HasText(data[j], key) && data[j][key] == t
    decreases |data|
  {
    if data != [] {
      var init := data[..|data| - 1];
      TextsMembers(init, key, t);
      assert forall j :: 0 <= j < |init| ==> init[j] == data[j];
    }
  }

  /** An item without usable text contributes nothing. */
  lemma TextsSkip(data: seq<Item>, key: string, item: Item)
    requires !HasText(item, key)
    ensures Texts(data + [item], key) == Texts(data, key)
  {
    assert (data + [item])[..|data|] == data;
  }

  /** An item with text adds its text after those of the earlier items. */
  lemma TextsKeep(data: seq<Item>, key: string, item: Item)
    requires HasText(item, key)
    ensures Texts(data + [item], key) == Texts(data, key) + [item[key]]
  {
    assert (data + [item])[..|data|] == data;
  }

  /** The vector stored for one text: the embedding, or zeros when the call
    * failed. */
  function VectorFor(embed: string -> Option<Vector>, text: string): Vector {
    match embed(text)
    case Some(v) => v
    case None => Zeros(Dimension)
  }

  /** How many of the texts embedded without failure. */
  function Successes(texts: seq<string>, embed: string -> Option<Vector>): (r: nat)
    ensures r <= |texts|
  {
    if texts == [] then 0
    else Successes(texts[..|texts| - 1], embed) + (if embed(texts[|texts| - 1]).Some? then 1 else 0)
  }

  /** When every call succeeds, every text counts. */
  lemma {:induction false} SuccessesAll(texts: seq<string>, embed: string -> Option<Vector>)
    requires forall k :: 0 <= k < |texts| ==> embed(texts[k]).Some?
    ensures Successes(texts, embed) == |texts|
    decreases |texts|
  {
    if texts != [] {
      SuccessesAll(texts[..|texts| - 1], embed);
    }
  }

  /** generate_embeddings: one vector per item with text, in order (zeros for
    * a failed call), and the number of calls that succeeded. The array is
    * saved only when it is not empty. */
  method GenerateEmbeddings(data: seq<Item>, textKey: string, embed: string -> Option<Vector>)
    returns (embeddings: seq<Vector>, validCount: nat, saved: Option<seq<Vector>>)
    ensures var texts := Texts(data, textKey);
      |embeddings| == |texts|
      && (forall k :: 0 <= k < |texts| ==> embeddings[k] == VectorFor(embed, texts[k]))
      && validCount == Successes(texts, embed)
    ensures validCount <= |embeddings|
    ensures saved == (if embeddings == [] then None else Some(embeddings))
    ensures data == [] ==> embeddings == [] && saved.None?
  {
    embeddings := [];
    validCount := 0;
    saved := None;
    if data == [] {
      return;
    }
    for i := 0 to |data|
      invariant var texts := Texts(data[..i], textKey);
        |embeddings| == |texts|
        && (forall k :: 0 <= k < |texts| ==> embeddings[k] == VectorFor(embed, texts[k]))
        && validCount == Successes(texts, embed)
    {
      var item := data[i];
      assert data[..i + 1][..i] == data[..i];
      ghost var texts := Texts(data[..i], textKey);
      if textKey in item && Strip(item[textKey]) != [] {
        var text := item[textKey];
        assert Texts(data[..i + 1], textKey) == texts + [text];
        assert (texts + [text])[..|texts|] == texts;
        match embed(text)
        case Some(emb) =>
          embeddings := embeddings + [emb];
          validCount := validCount + 1;
        case None =>
          embeddings := embeddings + [Zeros(Dimension)];
      } else {
        assert Texts(data[..i + 1], textKey) == texts;
      }
    }
    assert data[..|data|] == data;
    if embeddings == [] {
      return;
    }
    saved := Some(embeddings);
  }
}
