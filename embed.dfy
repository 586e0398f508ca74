/** embed.py: the semantic-search index. The index is dropped and recreated
    with a 384-dimension `embedding` field, and each document is sent with
    the embedding of its `explanation` added. */
module Embed {
  import opened Errors
  import opened Json
  import opened Bulk
  import opened Engine
  import opened Indexing

  const EmbeddingField := "embedding"
  /** The dimension `delete_and_create_index` declares. */
  const RecreateDims := 384
  /** The dimension `_create_index` declares, which disagrees with RecreateDims. */
  const CreateDims := 768
  const RecreateContext := "Error deleting and creating index"

  /** `_create_index` of embed.py: create-if-absent with a 768-dimension
      `embedding` field. */
  method CreateIndex(store: Store, name: string) returns (r: Result<bool>)
    modifies store
    ensures r == CreateIfAbsentReply(store.failing, old(store.indices), name)
    ensures store.indices == CreateIfAbsent(store.failing, old(store.indices), name, DenseVector(EmbeddingField, CreateDims))
    ensures store.pipelines == old(store.pipelines) && store.bulkLog == old(store.bulkLog)
  {
    r := CreateIfAbsentRaising(store, name, DenseVector(EmbeddingField, CreateDims));
  }

  /** Both paths agree on the field and disagree on its dimension. */
  lemma DimensionsDisagree(failing: set<Op>, indices: Indices, name: string)
    requires name !in indices && OpExists !in failing && OpCreate !in failing && OpDelete !in failing
    ensures var created := CreateIfAbsent(failing, indices, name, DenseVector(EmbeddingField, CreateDims));
      var recreated := Recreate(failing, indices, name);
      && name in created && name in recreated
      && created[name].mapping.field == recreated[name].mapping.field == EmbeddingField
      && created[name].mapping.dims == 768 && recreated[name].mapping.dims == 384
  {
  }

  /** What `delete_and_create_index` raises: the delete's error or the
      create's, re-raised as ConnectionError. */
  function RecreateReply(failing: set<Op>): Result<()>
  {
    if OpDelete in failing then Err(ConnectionError(RecreateContext, EngineFailure(OpDelete)))
    else if OpCreate in failing then Err(ConnectionError(RecreateContext, EngineFailure(OpCreate)))
    else Ok(())
  }

  /** The indices after `delete_and_create_index`. A failed create leaves
      the index deleted. */
  function Recreate(failing: set<Op>, indices: Indices, name: string): Indices
  {
    if OpDelete in failing then indices
    else if OpCreate in failing then indices - {name}
    else indices[name := Index(DenseVector(EmbeddingField, RecreateDims), [])]
  }

  /** `delete_and_create_index`: delete (an absent index is not an error),
      then create with a 384-dimension `embedding` field. */
  method DeleteAndCreateIndex(store: Store, name: string) returns (r: Result<()>)
    modifies store
    ensures r == RecreateReply(store.failing)
    ensures store.indices == Recreate(store.failing, old(store.indices), name)
    ensures store.pipelines == old(store.pipelines) && store.bulkLog == old(store.bulkLog)
  {
    var deleted := store.Delete(name, true);
    if deleted.Err? {
      return Err(ConnectionError(RecreateContext, deleted.error));
    }
    var created := store.Create(name, DenseVector(EmbeddingField, RecreateDims));
    if created.Err? {
      return Err(ConnectionError(RecreateContext, created.error));
    }
    r := Ok(());
  }

  /** After a successful `delete_and_create_index` the index exists, holds
      no documents and has the 384-dimension mapping, whatever was there
      before; no other index changes. */
  lemma RecreateFresh(failing: set<Op>, indices: Indices, name: string)
    requires RecreateReply(failing).Ok?
    ensures var after := Recreate(failing, indices, name);
      && after.Keys == indices.Keys + {name}
      && after[name] == Index(DenseVector(EmbeddingField, RecreateDims), [])
      && forall k :: k in indices && k != name ==> after[k] == indices[k]
  {
  }

  /** What `_insert_documents` achieves before wrapping: the body sent, or
      the error of the first document that cannot be augmented, or the bulk
      call's error. A body goes out exactly when the corpus is non-empty and
      can be augmented and the bulk call goes through, and it is then the
      plain body over the augmented documents. */
  function InsertReply(failing: set<Op>, name: string, docs: seq<Document>, model: Encoder): (r: Result<seq<BulkEntry>>)
    ensures r.Ok? <==> AugmentAll(docs, model).Ok? && docs != [] && OpBulk !in failing
    ensures r.Ok? ==> r.value == PlainBody(name, AugmentAll(docs, model).value) && WellFormed(r.value)
    ensures AugmentAll(docs, model).Err? ==> r == Err(AugmentAll(docs, model).error)
  {
    var body :- EmbeddedBody(name, docs, model);
    AugmentAllLength(docs, model);
    var _ :- BulkReply(failing, body);
    Ok(body)
  }

  /** `_insert_documents` of embed.py. */
  method InsertDocuments(store: Store, name: string, docs: seq<Document>, model: Encoder) returns (r: Result<()>)
    modifies store
    ensures r.Ok? <==> InsertReply(store.failing, name, docs, model).Ok?
    ensures r.Err? ==> r.error == ConnectionError(InsertContext, InsertReply(store.failing, name, docs, model).error)
    ensures store.indices == if r.Ok? then ApplyBulk(old(store.indices), InsertReply(store.failing, name, docs, model).value, None)
                             else old(store.indices)
    ensures store.bulkLog == if r.Ok? then old(store.bulkLog) + [BulkRequest(InsertReply(store.failing, name, docs, model).value, None)]
                             else old(store.bulkLog)
    ensures store.pipelines == old(store.pipelines)
  {
    var built := BuildEmbeddedBody(name, docs, model);
    if built.Err? {
      return Err(ConnectionError(InsertContext, built.error));
    }
    var sent := store.BulkIndex(built.value, None);
    r := Wrap(InsertContext, sent);
  }

  /** The indices after `index_data` of embed.py: recreate, then insert;
      every error is caught and printed. */
  function ReindexEffect(failing: set<Op>, indices: Indices, name: string, docs: seq<Document>, model: Encoder): Indices
  {
    var recreated := Recreate(failing, indices, name);
    if RecreateReply(failing).Err? then recreated
    else
      match InsertReply(failing, name, docs, model)
      case Ok(body) => ApplyBulk(recreated, body, None)
      case Err(_) => recreated
  }

  /** `index_data` of embed.py, with the documents `read_data` returned given
      as `docs`. It sends at most one bulk request and registers no
      pipeline. */
  method IndexCorpus(store: Store, name: string, docs: seq<Document>, model: Encoder)
    modifies store
    ensures store.indices == ReindexEffect(store.failing, old(store.indices), name, docs, model)
    ensures store.pipelines == old(store.pipelines)
    ensures store.bulkLog ==
      if RecreateReply(store.failing).Ok? && InsertReply(store.failing, name, docs, model).Ok?
      then old(store.bulkLog) + [BulkRequest(InsertReply(store.failing, name, docs, model).value, None)]
      else old(store.bulkLog)
  {
    var recreated := DeleteAndCreateIndex(store, name);
    if recreated.Err? {
      return;
    }
    var _ := InsertDocuments(store, name, docs, model);
  }

  /** When every call goes through, the index holds exactly the augmented
      corpus, one stored document per input document, in order. */
  lemma ReindexContents(failing: set<Op>, indices: Indices, name: string, docs: seq<Document>, model: Encoder)
    requires RecreateReply(failing).Ok? && OpBulk !in failing
    requires docs != [] && AugmentAll(docs, model).Ok?
    ensures var after := ReindexEffect(failing, indices, name, docs, model);
      && name in after
      && after[name] == Index(DenseVector(EmbeddingField, RecreateDims), Stamp(AugmentAll(docs, model).value, None))
      && |after[name].docs| == |docs|
      && forall k :: k in indices && k != name ==> k in after && after[k] == indices[k]
  {
    ReindexResult(failing, indices, name, docs, model);
    AugmentAllLength(docs, model);
  }

  lemma ReindexResult(failing: set<Op>, indices: Indices, name: string, docs: seq<Document>, model: Encoder)
    requires RecreateReply(failing).Ok? && OpBulk !in failing
    requires docs != [] && AugmentAll(docs, model).Ok?
    ensures ReindexEffect(failing, indices, name, docs, model) ==
      indices[name := Index(DenseVector(EmbeddingField, RecreateDims), Stamp(AugmentAll(docs, model).value, None))]
  {
    var augmented := AugmentAll(docs, model).value;
    var empty := Index(DenseVector(EmbeddingField, RecreateDims), []);
    var full := Index(DenseVector(EmbeddingField, RecreateDims), Stamp(augmented, None));
    var recreated := indices[name := empty];
    calc {
      ReindexEffect(failing, indices, name, docs, model);
    == { ReindexSendsAugmented(failing, indices, name, docs, model); }
      ApplyBulk(recreated, PlainBody(name, augmented), None);
    == { AugmentAllLength(docs, model); ApplyPlainBody(recreated, name, augmented, None); }
      recreated[name := Appended(recreated, name, Stamp(augmented, None))];
    == { assert Appended(recreated, name, Stamp(augmented, None)) == full; }
      recreated[name := full];
    == { UpdateTwice(indices, name, empty, full); }
      indices[name := full];
    }
  }

  /** A run whose every call goes through applies the plain body over the
      augmented corpus to the freshly recreated index. */
  lemma ReindexSendsAugmented(failing: set<Op>, indices: Indices, name: string, docs: seq<Document>, model: Encoder)
    requires RecreateReply(failing).Ok? && InsertReply(failing, name, docs, model).Ok?
    ensures ReindexEffect(failing, indices, name, docs, model) ==
      ApplyBulk(indices[name := Index(DenseVector(EmbeddingField, RecreateDims), [])], PlainBody(name, AugmentAll(docs, model).value), None)
  {
    assert Recreate(failing, indices, name) == indices[name := Index(DenseVector(EmbeddingField, RecreateDims), [])];
  }

  /** Reindexing twice with the same set of failing calls leaves the
      indices as reindexing once: the recreate step discards what an earlier
      run stored, so documents never accumulate. */
  lemma ReindexIdempotent(failing: set<Op>, indices: Indices, name: string, docs: seq<Document>, model: Encoder)
    ensures var once := ReindexEffect(failing, indices, name, docs, model);
      ReindexEffect(failing, once, name, docs, model) == once
  {
    if RecreateReply(failing).Ok? {
      ReindexForgetsEarlierRuns(failing, failing, indices, name, docs, model);
    } else {
      assert ReindexEffect(failing, indices, name, docs, model) == Recreate(failing, indices, name);
    }
  }

  /** `a` and `b` hold the same indices under the same names, `name` aside. */
  ghost predicate AgreeOutside(a: Indices, b: Indices, name: string)
  {
    forall k :: k != name ==> (k in a <==> k in b) && (k in a ==> a[k] == b[k])
  }

  /** A run of `index_data` touches no index but `name`. */
  lemma ReindexTouchesOnlyName(failing: set<Op>, indices: Indices, name: string, docs: seq<Document>, model: Encoder)
    ensures AgreeOutside(ReindexEffect(failing, indices, name, docs, model), indices, name)
  {
    if RecreateReply(failing).Err? {
      assert ReindexEffect(failing, indices, name, docs, model) == Recreate(failing, indices, name);
    } else if InsertReply(failing, name, docs, model).Ok? {
      ReindexResult(failing, indices, name, docs, model);
    } else {
      var empty := Index(DenseVector(EmbeddingField, RecreateDims), []);
      assert ReindexEffect(failing, indices, name, docs, model) == indices[name := empty];
    }
  }

  /** Whatever failed in an earlier run, a run whose recreate goes through
      leaves the indices exactly as if the earlier run had not happened. */
  lemma ReindexForgetsEarlierRuns(earlier: set<Op>, failing: set<Op>, indices: Indices, name: string,
                                  docs: seq<Document>, model: Encoder)
    requires RecreateReply(failing).Ok?
    ensures ReindexEffect(failing, ReindexEffect(earlier, indices, name, docs, model), name, docs, model)
            == ReindexEffect(failing, indices, name, docs, model)
  {
    var once := ReindexEffect(earlier, indices, name, docs, model);
    ReindexTouchesOnlyName(earlier, indices, name, docs, model);
    UpdateAgrees(once, indices, name, Index(DenseVector(EmbeddingField, RecreateDims), []));
    ReindexAfterRecreate(failing, once, indices, name, docs, model);
  }

  /** Once the recreate goes through, a run depends on the indices before it
      only through what the recreate left. */
  lemma ReindexAfterRecreate(failing: set<Op>, a: Indices, b: Indices, name: string, docs: seq<Document>, model: Encoder)
    requires RecreateReply(failing).Ok?
    requires a[name := Index(DenseVector(EmbeddingField, RecreateDims), [])] == b[name := Index(DenseVector(EmbeddingField, RecreateDims), [])]
    ensures ReindexEffect(failing, a, name, docs, model) == ReindexEffect(failing, b, name, docs, model)
  {
    assert Recreate(failing, a, name) == Recreate(failing, b, name);
  }

  lemma UpdateAgrees(a: Indices, b: Indices, name: string, v: Index)
    requires AgreeOutside(a, b, name)
    ensures a[name := v] == b[name := v]
  {
  }
}
