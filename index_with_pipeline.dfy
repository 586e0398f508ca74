/** index_with_pipeline.py: the HTML-stripped index. `create_pipeline`
    registers an ingest pipeline that strips HTML from `explanation`;
    `index_data` creates the index when absent and bulk-inserts the corpus
    through a pipeline named by id, which it does not register itself. */
module IndexWithPipeline {
  import opened Errors
  import opened Json
  import opened Bulk
  import opened Engine
  import opened Indexing

  const PipelineDescription := "parses the text and removed the html content"

  /** An ingest processor; the repository uses only `html_strip`. */
  datatype Processor = HtmlStrip(field: string)

  function ProcessorJson(p: Processor): Value
  {
    Obj(map["html_strip" := Obj(map["field" := Str(p.field)])])
  }

  /** A pipeline body `{"description": ..., "processors": [...]}`. */
  function PipelineJson(description: string, processors: seq<Processor>): Value
  {
    Obj(map["description" := Str(description),
            "processors" := Arr(seq(|processors|, i requires 0 <= i < |processors| => ProcessorJson(processors[i])))])
  }

  /** The body `create_pipeline` registers: two identical `html_strip`
      processors on `explanation`. */
  function PipelineBody(): Value
  {
    PipelineJson(PipelineDescription, [HtmlStrip("explanation"), HtmlStrip("explanation")])
  }

  /** Reads a processor back from its JSON form. */
  function ReadProcessor(v: Value): Option<Processor>
  {
    match v
    case Obj(m) =>
      if m.Keys == {"html_strip"} && m["html_strip"].Obj? then
        var inner := m["html_strip"].fields;
        if inner.Keys == {"field"} && inner["field"].Str? then Some(HtmlStrip(inner["field"].s)) else None
      else None
    case _ => None
  }

  function ReadProcessors(items: seq<Value>): Option<seq<Processor>>
  {
    if items == [] then Some([])
    else
      match (ReadProcessors(items[..|items| - 1]), ReadProcessor(items[|items| - 1]))
      case (Some(ps), Some(p)) => Some(ps + [p])
      case _ => None
  }

  /** Reads a pipeline body back: its description and its processors. */
  function ReadPipeline(v: Value): Option<(string, seq<Processor>)>
  {
    match v
    case Obj(m) =>
      if m.Keys == {"description", "processors"} && m["description"].Str? && m["processors"].Arr? then
        match ReadProcessors(m["processors"].items)
        case Some(ps) => Some((m["description"].s, ps))
        case None => None
      else None
    case _ => None
  }

  lemma {:induction false} ProcessorsRoundTrip(processors: seq<Processor>)
    ensures ReadProcessors(seq(|processors|, i requires 0 <= i < |processors| => ProcessorJson(processors[i]))) == Some(processors)
  {
    var items := seq(|processors|, i requires 0 <= i < |processors| => ProcessorJson(processors[i]));
    if processors != [] {
      var n := |processors| - 1;
      ProcessorsRoundTrip(processors[..n]);
      assert items[..n] == seq(n, i requires 0 <= i < n => ProcessorJson(processors[..n][i]));
      assert ReadProcessor(items[n]) == Some(processors[n]);
      assert processors[..n] + [processors[n]] == processors;
    }
  }

  /** A pipeline body can be read back into the description and processors
      it was written from. */
  lemma PipelineRoundTrip(description: string, processors: seq<Processor>)
    ensures ReadPipeline(PipelineJson(description, processors)) == Some((description, processors))
  {
    ProcessorsRoundTrip(processors);
  }

  /** The registered pipeline holds exactly two processors, both stripping
      HTML from `explanation`. */
  lemma PipelineBodyProcessors()
    ensures ReadPipeline(PipelineBody()) == Some((PipelineDescription, [HtmlStrip("explanation"), HtmlStrip("explanation")]))
  {
    PipelineRoundTrip(PipelineDescription, [HtmlStrip("explanation"), HtmlStrip("explanation")]);
  }

  /** `create_pipeline`: registers the body under `id`. Any error is printed
      and swallowed: the result is then None and nothing changes. */
  method CreatePipeline(store: Store, id: string) returns (r: Option<()>)
    modifies store
    ensures r.Some? <==> OpPutPipeline !in store.failing
    ensures store.pipelines == if r.Some? then old(store.pipelines)[id := PipelineBody()] else old(store.pipelines)
    ensures store.indices == old(store.indices) && store.bulkLog == old(store.bulkLog)
  {
    var put := store.PutPipeline(id, PipelineBody());
    r := if put.Ok? then Some(()) else None;
  }

  /** `_create_index` of index_with_pipeline.py: create-if-absent with a
      dynamic mapping. */
  method CreateIndex(store: Store, name: string) returns (r: Result<bool>)
    modifies store
    ensures r == CreateIfAbsentReply(store.failing, old(store.indices), name)
    ensures store.indices == CreateIfAbsent(store.failing, old(store.indices), name, DynamicMapping)
    ensures store.pipelines == old(store.pipelines) && store.bulkLog == old(store.bulkLog)
  {
    r := CreateIfAbsentRaising(store, name, DynamicMapping);
  }

  /** `_insert_documents` of index_with_pipeline.py: the plain body, sent
      with the pipeline id. The documents are stored only when that
      pipeline is registered. */
  method InsertDocuments(store: Store, name: string, docs: seq<Document>, pipelineId: string) returns (r: Result<()>)
    modifies store
    ensures r == Wrap(InsertContext, BulkReply(store.failing, PlainBody(name, docs)))
    ensures store.indices == if r.Ok? && pipelineId in old(store.pipelines)
                             then ApplyBulk(old(store.indices), PlainBody(name, docs), Some(pipelineId))
                             else old(store.indices)
    ensures store.bulkLog == if r.Ok? then old(store.bulkLog) + [BulkRequest(PlainBody(name, docs), Some(pipelineId))]
                             else old(store.bulkLog)
    ensures store.pipelines == old(store.pipelines)
  {
    var body := PairWithActions(name, docs);
    var sent := store.BulkIndex(body, Some(pipelineId));
    r := Wrap(InsertContext, sent);
  }

  /** The indices after `index_data` of index_with_pipeline.py, run against
      the registered `pipelines`: create if absent (a failure ends the run),
      then insert; every error is caught and printed. */
  function CorpusEffect(failing: set<Op>, pipelines: map<string, Value>, indices: Indices,
                        name: string, docs: seq<Document>, pipelineId: string): Indices
  {
    var created := CreateIfAbsent(failing, indices, name, DynamicMapping);
    if CreateIfAbsentReply(failing, indices, name).Err? then created
    else if BulkReply(failing, PlainBody(name, docs)).Ok? && pipelineId in pipelines
    then ApplyBulk(created, PlainBody(name, docs), Some(pipelineId))
    else created
  }

  /** `index_data` of index_with_pipeline.py, with the documents `read_data`
      returned given as `docs`. It sends at most one bulk request and
      registers no pipeline. */
  method IndexCorpus(store: Store, name: string, docs: seq<Document>, pipelineId: string)
    modifies store
    ensures store.indices == CorpusEffect(store.failing, old(store.pipelines), old(store.indices), name, docs, pipelineId)
    ensures store.pipelines == old(store.pipelines)
    ensures store.bulkLog ==
      if CreateIfAbsentReply(store.failing, old(store.indices), name).Ok? && BulkReply(store.failing, PlainBody(name, docs)).Ok?
      then old(store.bulkLog) + [BulkRequest(PlainBody(name, docs), Some(pipelineId))]
      else old(store.bulkLog)
  {
    var created := CreateIndex(store, name);
    if created.Err? {
      return;
    }
    var _ := InsertDocuments(store, name, docs, pipelineId);
  }

  /** When every call goes through and the pipeline is registered, each
      document is stored as it was sent (HTML is not stripped before
      sending) and tagged with the pipeline, after whatever the index
      already held; no other index changes. */
  lemma CorpusRoutedThroughPipeline(failing: set<Op>, pipelines: map<string, Value>, indices: Indices,
                                    name: string, docs: seq<Document>, pipelineId: string)
    requires OpExists !in failing && OpCreate !in failing && OpBulk !in failing && docs != []
    requires pipelineId in pipelines
    ensures var after := CorpusEffect(failing, pipelines, indices, name, docs, pipelineId);
      var before := if name in indices then indices[name].docs else [];
      && name in after
      && after[name].docs == before + Stamp(docs, Some(pipelineId))
      && forall k :: k in indices && k != name ==> k in after && after[k] == indices[k]
  {
    var created := CreateIfAbsent(failing, indices, name, DynamicMapping);
    assert CreateIfAbsentReply(failing, indices, name).Ok?;
    PlainBodyWellFormed(name, docs);
    assert BulkReply(failing, PlainBody(name, docs)) == Ok(());
    ApplyPlainBody(created, name, docs, Some(pipelineId));
  }

  /** As written, `index_data` never registers the pipeline it names. On an
      engine where that pipeline is unknown no document is stored, whatever
      succeeds: the run leaves the indices as create-if-absent left them. */
  lemma UnregisteredPipelineStoresNothing(failing: set<Op>, pipelines: map<string, Value>, indices: Indices,
                                          name: string, docs: seq<Document>, pipelineId: string)
    requires pipelineId !in pipelines
    ensures CorpusEffect(failing, pipelines, indices, name, docs, pipelineId)
            == CreateIfAbsent(failing, indices, name, DynamicMapping)
    ensures name in indices ==> CorpusEffect(failing, pipelines, indices, name, docs, pipelineId)[name] == indices[name]
  {
  }

  /** The pipelines after `create_pipeline`: a failure is swallowed and
      registers nothing. */
  function Registered(failing: set<Op>, pipelines: map<string, Value>, id: string): map<string, Value>
  {
    if OpPutPipeline in failing then pipelines else pipelines[id := PipelineBody()]
  }

  /** The evidently intended driver: register the pipeline, then run
      `index_data` through it. */
  method IndexCorpusRegistered(store: Store, name: string, docs: seq<Document>, pipelineId: string)
    modifies store
    ensures store.pipelines == Registered(store.failing, old(store.pipelines), pipelineId)
    ensures store.indices ==
      CorpusEffect(store.failing, Registered(store.failing, old(store.pipelines), pipelineId), old(store.indices), name, docs, pipelineId)
    ensures store.bulkLog ==
      if CreateIfAbsentReply(store.failing, old(store.indices), name).Ok? && BulkReply(store.failing, PlainBody(name, docs)).Ok?
      then old(store.bulkLog) + [BulkRequest(PlainBody(name, docs), Some(pipelineId))]
      else old(store.bulkLog)
  {
    var _ := CreatePipeline(store, pipelineId);
    IndexCorpus(store, name, docs, pipelineId);
  }

  /** With registration first, a run in which every call goes through
      stores each document, tagged with the pipeline, after what the index
      held, whatever pipelines were registered before. */
  lemma RegisteredCorpusStored(failing: set<Op>, pipelines: map<string, Value>, indices: Indices,
                               name: string, docs: seq<Document>, pipelineId: string)
    requires OpPutPipeline !in failing && OpExists !in failing && OpCreate !in failing && OpBulk !in failing
    requires docs != []
    ensures var after := CorpusEffect(failing, Registered(failing, pipelines, pipelineId), indices, name, docs, pipelineId);
      var before := if name in indices then indices[name].docs else [];
      && name in after
      && after[name].docs == before + Stamp(docs, Some(pipelineId))
      && forall k :: k in indices && k != name ==> k in after && after[k] == indices[k]
  {
    CorpusRoutedThroughPipeline(failing, Registered(failing, pipelines, pipelineId), indices, name, docs, pipelineId);
  }
}
