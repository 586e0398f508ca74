/** The body of an Elasticsearch bulk request as the three indexing scripts
    build it: every document is preceded by an action line naming the target
    index. With an embedding model, each document first gains an `embedding`
    field computed from its `explanation`. */
module Bulk {
  import opened Errors
  import opened Json
  import opened Traverse

  /** One line of a bulk body: the action `{'index': {'_index': index}}`, or
      a document source. */
  datatype BulkEntry = Action(index: string) | Doc(source: Document)

  /** The `model` argument of embed.py: `NoModel` is a falsy model (None);
      `Model` carries the model's `encode`, an uninterpreted function. */
  datatype Encoder = NoModel | Model(encode: string -> Embedding)

  /** The body for documents sent as they are. */
  function PlainBody(index: string, docs: seq<Document>): (body: seq<BulkEntry>)
    ensures |body| == 2 * |docs|
    ensures forall i :: 0 <= i < |docs| ==> body[2 * i] == Action(index) && body[2 * i + 1] == Doc(docs[i])
  {
    if docs == [] then []
    else PlainBody(index, docs[..|docs| - 1]) + [Action(index), Doc(docs[|docs| - 1])]
  }

  /** A body alternates actions and sources, starting with an action. */
  predicate WellFormed(body: seq<BulkEntry>)
  {
    if body == [] then true
    else |body| >= 2 && body[|body| - 2].Action? && body[|body| - 1].Doc? && WellFormed(body[..|body| - 2])
  }

  /** The documents a well-formed body carries, in order. */
  function Sources(body: seq<BulkEntry>): seq<Document>
    requires WellFormed(body)
  {
    if body == [] then [] else Sources(body[..|body| - 2]) + [body[|body| - 1].source]
  }

  /** The indices a well-formed body targets, in order. */
  function Targets(body: seq<BulkEntry>): seq<string>
    requires WellFormed(body)
  {
    if body == [] then [] else Targets(body[..|body| - 2]) + [body[|body| - 2].index]
  }

  /** A plain body alternates actions and sources. */
  lemma {:induction false} PlainBodyWellFormed(index: string, docs: seq<Document>)
    ensures WellFormed(PlainBody(index, docs))
  {
    if docs != [] {
      var front := docs[..|docs| - 1];
      PlainBodyWellFormed(index, front);
      var body := PlainBody(index, docs);
      assert body[..|body| - 2] == PlainBody(index, front);
    }
  }

  /** A plain body carries exactly the given documents, in their order:
      the documents can be read back from it. */
  lemma {:induction false} PlainBodySources(index: string, docs: seq<Document>)
    ensures WellFormed(PlainBody(index, docs))
    ensures Sources(PlainBody(index, docs)) == docs
  {
    PlainBodyWellFormed(index, docs);
    if docs != [] {
      var front := docs[..|docs| - 1];
      PlainBodySources(index, front);
      var body := PlainBody(index, docs);
      assert body[..|body| - 2] == PlainBody(index, front);
      assert front + [docs[|docs| - 1]] == docs;
    }
  }

  /** Every action of a plain body targets the given index. */
  lemma {:induction false} PlainBodyTargets(index: string, docs: seq<Document>)
    ensures WellFormed(PlainBody(index, docs))
    ensures |Targets(PlainBody(index, docs))| == |docs|
    ensures forall t :: t in Targets(PlainBody(index, docs)) ==> t == index
  {
    PlainBodyWellFormed(index, docs);
    if docs != [] {
      var front := docs[..|docs| - 1];
      PlainBodyTargets(index, front);
      var body := PlainBody(index, docs);
      assert body[..|body| - 2] == PlainBody(index, front);
    }
  }

  /** `{**doc, "embedding": model.encode(doc['explanation'])}` when a model is
      given, the document itself otherwise. A missing `explanation` raises
      KeyError; a non-string one is refused by the model. */
  function Augment(doc: Document, model: Encoder): (r: Result<Document>)
    ensures model.NoModel? ==> r == Ok(doc)
    ensures model.Model? ==> (r.Ok? <==> "explanation" in doc && doc["explanation"].Str?)
    ensures model.Model? && "explanation" !in doc ==> r == Err(KeyError("explanation"))
    ensures model.Model? && r.Ok? ==>
      && r.value.Keys == doc.Keys + {"embedding"}
      && r.value["embedding"] == Vector(model.encode(doc["explanation"].s))
      && forall k :: k in doc && k != "embedding" ==> r.value[k] == doc[k]
  {
    match model
    case NoModel => Ok(doc)
    case Model(encode) =>
      if "explanation" !in doc then Err(KeyError("explanation"))
      else
        match doc["explanation"]
        case Str(text) => Ok(doc["embedding" := Vector(encode(text))])
        case _ => Err(EncodeFailure)
  }

  /** Augments every document in order, stopping at the first failure. */
  function AugmentAll(docs: seq<Document>, model: Encoder): Result<seq<Document>>
  {
    MapAll(docs, AugmentWith(model))
  }

  /** The loop body of embed.py, as a step over one document. */
  function AugmentWith(model: Encoder): Document -> Result<Document>
  {
    (d: Document) => Augment(d, model)
  }

  /** AugmentAll succeeds exactly when every document can be augmented, and
      then yields the augmented documents pointwise, in order; otherwise it
      reports the error of the first document that cannot be. */
  lemma AugmentAllSpec(docs: seq<Document>, model: Encoder)
    ensures AugmentAll(docs, model).Ok? <==> forall i :: 0 <= i < |docs| ==> Augment(docs[i], model).Ok?
    ensures AugmentAll(docs, model).Ok? ==>
      var r := AugmentAll(docs, model).value;
      |r| == |docs| && forall i :: 0 <= i < |docs| ==> r[i] == Augment(docs[i], model).value
    ensures AugmentAll(docs, model).Err? ==>
      exists i :: 0 <= i < |docs| && Augment(docs[i], model) == Err(AugmentAll(docs, model).error) &&
        forall j :: 0 <= j < i ==> Augment(docs[j], model).Ok?
  {
    MapAllSpec(docs, AugmentWith(model));
  }

  /** An augmented corpus has one document per input document. */
  lemma AugmentAllLength(docs: seq<Document>, model: Encoder)
    requires AugmentAll(docs, model).Ok?
    ensures |AugmentAll(docs, model).value| == |docs|
  {
    AugmentAllSpec(docs, model);
  }

  /** The body embed.py sends: the plain body over the augmented documents.
      It is well formed, and the documents it carries are exactly the
      augmented ones, in order. */
  function EmbeddedBody(index: string, docs: seq<Document>, model: Encoder): (r: Result<seq<BulkEntry>>)
    ensures r.Ok? <==> AugmentAll(docs, model).Ok?
    ensures r.Ok? ==> WellFormed(r.value) && Sources(r.value) == AugmentAll(docs, model).value
  {
    var augmented :- AugmentAll(docs, model);
    PlainBodySources(index, augmented);
    Ok(PlainBody(index, augmented))
  }

  /** Without a model, embed.py sends the same body as the other scripts. */
  lemma NoModelIsPlain(index: string, docs: seq<Document>)
    ensures EmbeddedBody(index, docs, NoModel) == Ok(PlainBody(index, docs))
  {
    AugmentAllSpec(docs, NoModel);
    assert AugmentAll(docs, NoModel).value == docs;
  }

  /** With a model, the embedded body has length 2n; entry 2i targets the
      index and entry 2i+1 is document i with every field kept and
      `embedding` set to the encoding of its explanation. */
  lemma EmbeddedBodyAt(index: string, docs: seq<Document>, encode: string -> Embedding, i: nat)
    requires EmbeddedBody(index, docs, Model(encode)).Ok?
    requires i < |docs|
    ensures |EmbeddedBody(index, docs, Model(encode)).value| == 2 * |docs|
    ensures EmbeddedBody(index, docs, Model(encode)).value[2 * i] == Action(index)
    ensures
      var d := EmbeddedBody(index, docs, Model(encode)).value[2 * i + 1];
      && d.Doc?
      && "explanation" in docs[i] && docs[i]["explanation"].Str?
      && d.source == docs[i]["embedding" := Vector(encode(docs[i]["explanation"].s))]
  {
    AugmentAllSpec(docs, Model(encode));
    assert Augment(docs[i], Model(encode)).Ok?;
  }

  /** The append loop of index_data.py and index_with_pipeline.py. */
  method PairWithActions(index: string, docs: seq<Document>) returns (body: seq<BulkEntry>)
    ensures body == PlainBody(index, docs)
  {
    body := [];
    for i := 0 to |docs|
      invariant body == PlainBody(index, docs[..i])
    {
      body := body + [Action(index)];
      body := body + [Doc(docs[i])];
      assert docs[..i + 1][..i] == docs[..i];
    }
    assert docs[..|docs|] == docs;
  }

  /** The append loop of embed.py; the first document that cannot be
      augmented ends it with that document's error. */
  method BuildEmbeddedBody(index: string, docs: seq<Document>, model: Encoder) returns (r: Result<seq<BulkEntry>>)
    ensures r == EmbeddedBody(index, docs, model)
  {
    var body := [];
    ghost var augmented: seq<Document> := [];
    for i := 0 to |docs|
      invariant AugmentAll(docs[..i], model) == Ok(augmented)
      invariant body == PlainBody(index, augmented)
    {
      body := body + [Action(index)];
      var entry := Augment(docs[i], model);
      AugmentOneMore(docs, model, i, augmented);
      if entry.Err? {
        EmbeddedBodyFails(index, docs, model, i + 1);
        return Err(entry.error);
      }
      body := body + [Doc(entry.value)];
      PlainBodyOneMore(index, augmented, entry.value);
      augmented := augmented + [entry.value];
    }
    assert docs[..|docs|] == docs;
    r := Ok(body);
  }

  lemma AugmentOneMore(docs: seq<Document>, model: Encoder, i: nat, augmented: seq<Document>)
    requires i < |docs| && AugmentAll(docs[..i], model) == Ok(augmented)
    ensures AugmentAll(docs[..i + 1], model) ==
      match Augment(docs[i], model)
      case Ok(d) => Ok(augmented + [d])
      case Err(e) => Err(e)
  {
    MapAllOneMore(docs, AugmentWith(model), i);
  }

  lemma EmbeddedBodyFails(index: string, docs: seq<Document>, model: Encoder, k: nat)
    requires k <= |docs| && AugmentAll(docs[..k], model).Err?
    ensures EmbeddedBody(index, docs, model) == Err(AugmentAll(docs[..k], model).error)
  {
    MapAllFailureSticks(docs, AugmentWith(model), k);
  }

  lemma PlainBodyOneMore(index: string, docs: seq<Document>, d: Document)
    ensures PlainBody(index, docs + [d]) == PlainBody(index, docs) + [Action(index), Doc(d)]
  {
    assert (docs + [d])[..|docs|] == docs;
  }
}
