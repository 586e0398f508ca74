/** The search engine as the indexing scripts use it: a store of named
    indices, each with a mapping and the documents bulk requests put in it,
    and a store of ingest pipelines. Which calls fail is chosen by the
    environment through `failing`, once for the store's lifetime. */
module Engine {
  import opened Errors
  import opened Json
  import opened Bulk

  /** The mapping an index is created with: dynamic (no body given) or one
      `dense_vector` field of fixed dimension. */
  datatype Mapping = DynamicMapping | DenseVector(field: string, dims: nat)

  /** A document as the engine keeps it: the source that was sent and the
      ingest pipeline the request was routed through. What the pipeline does
      to the source is the engine's business and is not modelled. */
  datatype Stored = Stored(source: Document, pipeline: Option<string>)

  datatype Index = Index(mapping: Mapping, docs: seq<Stored>)

  type Indices = map<string, Index>

  /** One bulk call as the engine received it. */
  datatype BulkRequest = BulkRequest(body: seq<BulkEntry>, pipeline: Option<string>)

  /** The documents of a bulk request, each tagged with the request's pipeline. */
  function Stamp(docs: seq<Document>, pipeline: Option<string>): seq<Stored>
  {
    seq(|docs|, i requires 0 <= i < |docs| => Stored(docs[i], pipeline))
  }

  /** `name` with `more` added at the end; an absent index is created with a
      dynamic mapping, as the engine does on a bulk action naming it. */
  function Appended(indices: Indices, name: string, more: seq<Stored>): Index
  {
    if name in indices then Index(indices[name].mapping, indices[name].docs + more)
    else Index(DynamicMapping, more)
  }

  /** The engine applies the pairs of a bulk body in order. */
  function ApplyBulk(indices: Indices, body: seq<BulkEntry>, pipeline: Option<string>): Indices
    requires WellFormed(body)
  {
    if body == [] then indices
    else
      var before := ApplyBulk(indices, body[..|body| - 2], pipeline);
      var name := body[|body| - 2].index;
      before[name := Appended(before, name, [Stored(body[|body| - 1].source, pipeline)])]
  }

  /** Applying the body built for `docs` appends them, in order, to the one
      index it targets and leaves every other index as it was. */
  lemma {:induction false} ApplyPlainBody(indices: Indices, name: string, docs: seq<Document>, pipeline: Option<string>)
    ensures WellFormed(PlainBody(name, docs))
    ensures ApplyBulk(indices, PlainBody(name, docs), pipeline) ==
      if docs == [] then indices else indices[name := Appended(indices, name, Stamp(docs, pipeline))]
  {
    PlainBodyWellFormed(name, docs);
    if docs != [] {
      var n := |docs| - 1;
      ApplyPlainBody(indices, name, docs[..n], pipeline);
      if n > 0 {
        ApplyStep(indices, name, docs, pipeline);
      } else {
        ApplySingle(indices, name, docs, pipeline);
      }
    }
  }

  lemma ApplySingle(indices: Indices, name: string, docs: seq<Document>, pipeline: Option<string>)
    requires |docs| == 1
    ensures WellFormed(PlainBody(name, docs))
    ensures ApplyBulk(indices, PlainBody(name, docs), pipeline) == indices[name := Appended(indices, name, Stamp(docs, pipeline))]
  {
    var body := [Action(name), Doc(docs[0])];
    assert docs[..0] == [];
    assert PlainBody(name, docs) == body;
    assert body[..0] == [];
    assert ApplyBulk(indices, body, pipeline) == indices[name := Appended(indices, name, [Stored(docs[0], pipeline)])];
    assert Stamp(docs, pipeline) == [Stored(docs[0], pipeline)];
  }

  lemma ApplyStep(indices: Indices, name: string, docs: seq<Document>, pipeline: Option<string>)
    requires |docs| > 1
    requires WellFormed(PlainBody(name, docs[..|docs| - 1]))
    requires ApplyBulk(indices, PlainBody(name, docs[..|docs| - 1]), pipeline) ==
      indices[name := Appended(indices, name, Stamp(docs[..|docs| - 1], pipeline))]
    ensures WellFormed(PlainBody(name, docs))
    ensures ApplyBulk(indices, PlainBody(name, docs), pipeline) == indices[name := Appended(indices, name, Stamp(docs, pipeline))]
  {
    var n := |docs| - 1;
    ApplyLast(indices, name, docs, pipeline);
    StampLast(docs, pipeline);
    var front := Appended(indices, name, Stamp(docs[..n], pipeline));
    var before := indices[name := front];
    var after := Appended(before, name, [Stored(docs[n], pipeline)]);
    AppendedTwice(indices, name, Stamp(docs[..n], pipeline), [Stored(docs[n], pipeline)]);
    assert after == Appended(indices, name, Stamp(docs, pipeline));
    UpdateTwice(indices, name, front, after);
  }

  lemma UpdateTwice(indices: Indices, name: string, a: Index, b: Index)
    ensures indices[name := a][name := b] == indices[name := b]
  {
  }

  lemma ApplyLast(indices: Indices, name: string, docs: seq<Document>, pipeline: Option<string>)
    requires docs != []
    ensures WellFormed(PlainBody(name, docs[..|docs| - 1])) && WellFormed(PlainBody(name, docs))
    ensures
      var before := ApplyBulk(indices, PlainBody(name, docs[..|docs| - 1]), pipeline);
      ApplyBulk(indices, PlainBody(name, docs), pipeline) ==
        before[name := Appended(before, name, [Stored(docs[|docs| - 1], pipeline)])]
  {
    PlainBodyWellFormed(name, docs[..|docs| - 1]);
    PlainBodyWellFormed(name, docs);
    var body := PlainBody(name, docs);
    assert body[..|body| - 2] == PlainBody(name, docs[..|docs| - 1]);
  }

  lemma StampLast(docs: seq<Document>, pipeline: Option<string>)
    requires docs != []
    ensures Stamp(docs, pipeline) == Stamp(docs[..|docs| - 1], pipeline) + [Stored(docs[|docs| - 1], pipeline)]
  {
  }

  lemma AppendedTwice(indices: Indices, name: string, a: seq<Stored>, b: seq<Stored>)
    ensures Appended(indices[name := Appended(indices, name, a)], name, b) == Appended(indices, name, a + b)
  {
    if name in indices {
      assert indices[name].docs + a + b == indices[name].docs + (a + b);
    }
  }

  /** The engine's answer to a bulk call: transport failure, an empty body
      ("no requests added"), a body that does not alternate action and
      source lines, or success. */
  function BulkReply(failing: set<Op>, body: seq<BulkEntry>): (r: Result<()>)
    ensures r.Ok? ==> WellFormed(body)
  {
    if OpBulk in failing then Err(EngineFailure(OpBulk))
    else if body == [] then Err(NoRequests)
    else if !WellFormed(body) then Err(MalformedBulk)
    else Ok(())
  }

  /** Whether the engine can route documents through `pipeline`: none is
      asked for, or the one asked for is registered. Each document sent
      through an unknown pipeline is refused on its own while the bulk call
      itself succeeds, so none of them is stored. */
  predicate Routable(pipelines: map<string, Value>, pipeline: Option<string>)
  {
    pipeline.None? || pipeline.value in pipelines
  }

  class Store {
    var indices: Indices
    var pipelines: map<string, Value>
    var bulkLog: seq<BulkRequest>
    /** The calls that fail with a transport or engine error. */
    const failing: set<Op>

    constructor (failing: set<Op>, indices: Indices)
      ensures this.failing == failing && this.indices == indices
      ensures pipelines == map[] && bulkLog == []
    {
      this.failing := failing;
      this.indices := indices;
      pipelines := map[];
      bulkLog := [];
    }

    /** `client.indices.exists(index=name)`. */
    method Exists(name: string) returns (r: Result<bool>)
      ensures r.Ok? <==> OpExists !in failing
      ensures r.Ok? ==> (r.value <==> name in indices)
      ensures r.Err? ==> r.error == EngineFailure(OpExists)
    {
      if OpExists in failing {
        r := Err(EngineFailure(OpExists));
      } else {
        r := Ok(name in indices);
      }
    }

    /** `client.indices.create(index=name, body=...)`: refused when the index
        is there already. */
    method Create(name: string, mapping: Mapping) returns (r: Result<()>)
      modifies this
      ensures r == if OpCreate in failing then Err(EngineFailure(OpCreate))
                   else if name in old(indices) then Err(IndexAlreadyExists(name))
                   else Ok(())
      ensures indices == if r.Ok? then old(indices)[name := Index(mapping, [])] else old(indices)
      ensures pipelines == old(pipelines) && bulkLog == old(bulkLog)
    {
      if OpCreate in failing {
        r := Err(EngineFailure(OpCreate));
      } else if name in indices {
        r := Err(IndexAlreadyExists(name));
      } else {
        indices := indices[name := Index(mapping, [])];
        r := Ok(());
      }
    }

    /** `client.indices.delete(index=name, ignore_unavailable=...)`. */
    method Delete(name: string, ignoreUnavailable: bool) returns (r: Result<()>)
      modifies this
      ensures r == if OpDelete in failing then Err(EngineFailure(OpDelete))
                   else if name !in old(indices) && !ignoreUnavailable then Err(IndexNotFound(name))
                   else Ok(())
      ensures indices == if r.Ok? then old(indices) - {name} else old(indices)
      ensures pipelines == old(pipelines) && bulkLog == old(bulkLog)
    {
      if OpDelete in failing {
        r := Err(EngineFailure(OpDelete));
      } else if name !in indices && !ignoreUnavailable {
        r := Err(IndexNotFound(name));
      } else {
        indices := indices - {name};
        r := Ok(());
      }
    }

    /** `client.ingest.put_pipeline(id=id, body=body)`: creates or replaces. */
    method PutPipeline(id: string, body: Value) returns (r: Result<()>)
      modifies this
      ensures r == if OpPutPipeline in failing then Err(EngineFailure(OpPutPipeline)) else Ok(())
      ensures pipelines == if r.Ok? then old(pipelines)[id := body] else old(pipelines)
      ensures indices == old(indices) && bulkLog == old(bulkLog)
    {
      if OpPutPipeline in failing {
        r := Err(EngineFailure(OpPutPipeline));
      } else {
        pipelines := pipelines[id := body];
        r := Ok(());
      }
    }

    /** `client.bulk(body=body, pipeline=pipeline)`. A call that goes
        through is logged; its documents are stored only when the pipeline
        it names is registered. */
    method BulkIndex(body: seq<BulkEntry>, pipeline: Option<string>) returns (r: Result<()>)
      modifies this
      ensures r == BulkReply(failing, body)
      ensures indices == if r.Ok? && Routable(old(pipelines), pipeline) then ApplyBulk(old(indices), body, pipeline)
                         else old(indices)
      ensures bulkLog == if r.Ok? then old(bulkLog) + [BulkRequest(body, pipeline)] else old(bulkLog)
      ensures pipelines == old(pipelines)
    {
      r := BulkReply(failing, body);
      if r.Ok? {
        if Routable(pipelines, pipeline) {
          indices := ApplyBulk(indices, body, pipeline);
        }
        bulkLog := bulkLog + [BulkRequest(body, pipeline)];
      }
    }
  }
}
