/** index_data.py: the plain full-text index. The index is created only when
    absent and the corpus is bulk-inserted into it as it is. */
module IndexData {
  import opened Errors
  import opened Json
  import opened Bulk
  import opened Engine
  import opened Indexing

  /** `_create_index`: creates `name` with a dynamic mapping when the engine
      says it is absent. A failure is turned into a ConnectionError that is
      never raised, so the call never fails; the indices are then unchanged. */
  method CreateIndex(store: Store, name: string)
    modifies store
    ensures store.indices == CreateIfAbsent(store.failing, old(store.indices), name, DynamicMapping)
    ensures store.pipelines == old(store.pipelines) && store.bulkLog == old(store.bulkLog)
  {
    var present := CheckIndexExists(store, name);
    if present.Ok? && !present.value {
      // a failure of the create call is dropped like that of the check
      var _ := store.Create(name, DynamicMapping);
    }
  }

  /** `_insert_documents`: one bulk call with the plain body; a failure is
      re-raised as ConnectionError. */
  method InsertDocuments(store: Store, name: string, docs: seq<Document>) returns (r: Result<()>)
    modifies store
    ensures r == Wrap(InsertContext, BulkReply(store.failing, PlainBody(name, docs)))
    ensures store.indices == if r.Ok? then ApplyBulk(old(store.indices), PlainBody(name, docs), None) else old(store.indices)
    ensures store.bulkLog == if r.Ok? then old(store.bulkLog) + [BulkRequest(PlainBody(name, docs), None)] else old(store.bulkLog)
    ensures store.pipelines == old(store.pipelines)
  {
    var body := PairWithActions(name, docs);
    var sent := store.BulkIndex(body, None);
    r := Wrap(InsertContext, sent);
  }

  /** A bulk call that goes through appends the documents, unchanged and in
      order, to `name` and touches no other index; an empty corpus makes the
      call fail, and so `_insert_documents` raise. */
  lemma InsertAppends(failing: set<Op>, indices: Indices, name: string, docs: seq<Document>)
    ensures docs == [] ==> BulkReply(failing, PlainBody(name, docs)).Err?
    ensures OpBulk !in failing && docs != [] ==>
      && BulkReply(failing, PlainBody(name, docs)) == Ok(())
      && ApplyBulk(indices, PlainBody(name, docs), None) == indices[name := Appended(indices, name, Stamp(docs, None))]
  {
    ApplyPlainBody(indices, name, docs, None);
  }

  /** The indices after `index_data`: create if absent, then insert; every
      error is caught and printed. */
  function CorpusEffect(failing: set<Op>, indices: Indices, name: string, docs: seq<Document>): Indices
  {
    var created := CreateIfAbsent(failing, indices, name, DynamicMapping);
    PlainBodyWellFormed(name, docs);
    if BulkReply(failing, PlainBody(name, docs)).Ok? then ApplyBulk(created, PlainBody(name, docs), None) else created
  }

  /** `index_data`, with the documents `read_data` returned given as `docs`.
      It sends exactly one bulk request, logged when it goes through, and
      registers no pipeline. */
  method IndexCorpus(store: Store, name: string, docs: seq<Document>)
    modifies store
    ensures store.indices == CorpusEffect(store.failing, old(store.indices), name, docs)
    ensures store.pipelines == old(store.pipelines)
    ensures store.bulkLog == if BulkReply(store.failing, PlainBody(name, docs)).Ok?
                             then old(store.bulkLog) + [BulkRequest(PlainBody(name, docs), None)]
                             else old(store.bulkLog)
  {
    CreateIndex(store, name);
    var _ := InsertDocuments(store, name, docs);
  }

  /** Running `index_data` again adds the corpus a second time: the plain
      index accumulates duplicates, since the index is not recreated. */
  lemma {:induction false} RerunDuplicates(failing: set<Op>, indices: Indices, name: string, docs: seq<Document>)
    requires OpBulk !in failing && docs != []
    ensures var once := CorpusEffect(failing, indices, name, docs);
      var twice := CorpusEffect(failing, once, name, docs);
      && name in once && name in twice
      && twice[name].docs == once[name].docs + Stamp(docs, None)
      && |twice[name].docs| == |once[name].docs| + |docs|
  {
    var created := CreateIfAbsent(failing, indices, name, DynamicMapping);
    ApplyPlainBody(created, name, docs, None);
    var once := CorpusEffect(failing, indices, name, docs);
    assert name in once;
    ApplyPlainBody(once, name, docs, None);
  }
}
