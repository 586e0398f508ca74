# A verified model of the APOD search front-end's indexing and search logic

The repository serves full-text and semantic search over a corpus of
Astronomy Picture of the Day records held in Elasticsearch. Its own logic is
small:

- three indexing scripts build bulk requests and manage an index:
  - `index_data.py` creates the index if it is absent and sends the documents unchanged;
  - `embed.py` drops and recreates the index with a `dense_vector` field and adds an `embedding` to each document;
  - `index_with_pipeline.py` defines `create_pipeline`, which registers an HTML-stripping ingest pipeline, and its `index_data` sends the documents through a pipeline named by id; nothing in the file calls `create_pipeline`;
- the `/search` endpoint in `main.py` builds a `multi_match` query and projects the hits to their `_source`;
- `utils.py` flattens a per-year date-histogram aggregation into `{year, count}` records.

This project models that logic in Dafny and proves what it promises.

Modules:

- `Errors`: the Python exceptions the code raises or lets through, and `Result`/`Option`. An exception becomes an `Err` value. `Wrap` is the recurring `raise ConnectionError(f"{context}: {e}")`.
- `Json`: the values the code handles (dicts, lists, strings, integers, None, and the encoder's opaque vector). It also models Python's `d.get(k, default)`, `d[k]` and `for x in v` on those values, with their exceptions.
- `Traverse`: applying a step that may raise to each element of a list in order, stopping at the first failure. This is the shape of the append loops in `embed.py` and `utils.py` and of the comprehension in `main.py`. `MapAllSpec` proves it yields results pointwise, or the error of the first failing element.
- `Bulk`: the bulk body `[{'index': {'_index': name}}, doc, ...]` as a list of `Action`/`Doc` entries. It covers the plain body, the embedding step `{**doc, "embedding": encode(doc['explanation'])}` with the model's `encode` as an uninterpreted function, and the two append loops as methods proved against these functions.
- `Engine`: an abstract Elasticsearch, as a `Store` class. It holds the indices (mapping plus stored documents), the ingest pipelines and a log of bulk calls. Which calls fail is fixed by the environment through `failing`, once for the store's lifetime. A bulk call appends each document to the index its action names and records the pipeline it went through. Documents sent through a pipeline that is not registered are refused one by one, while the bulk call itself succeeds.
- `Indexing`: `_check_index_exists`, identical in the three scripts, and create-if-absent.
- `IndexData`, `Embed`, `IndexWithPipeline`: one module per script, with its `_create_index`, `_insert_documents`, `delete_and_create_index` / `create_pipeline` and `index_data`. A script's driver takes the documents `read_data` returned as a parameter.
- `SearchApi`: `main.py`'s `search`, with the engine as a function from request to response or exception.
- `Utils`: `format_docs_per_year`, as a loop proved against a specification function.

Inputs are values: no member can modify a response or a document it reads. This is how the model captures that `format_docs_per_year` only reads the response and that `{**doc, ...}` leaves the input documents alone.

Behaviour of the code worth noting:

- Re-running the plain indexer (`index_data.py`) adds the corpus a second time, since it never recreates the index (`IndexData.RerunDuplicates`). Only `embed.py` recreates, so only its reindexing is idempotent (`Embed.ReindexIdempotent`).
- Store errors are not uniformly re-raised. `_create_index` of `index_data.py` builds a `ConnectionError` and drops it, and `create_pipeline` prints and returns None. The model keeps both as swallowed failures.
- `embed.py` declares 768 dimensions in `_create_index` and 384 in `delete_and_create_index`. Both constants are kept (`Embed.DimensionsDisagree`).
- An unreadable corpus gives an empty document list. The bulk call then has an empty body, which Elasticsearch refuses ("no requests added"). So `_insert_documents` raises, and the driver catches and prints the error (`IndexData.InsertAppends`).

## Model

| member | source | states |
|---|---|---|
| Traverse.MapAllSpec | utils.py:6-9 | A loop that may raise part-way succeeds exactly when every element's step succeeds. Its results are then pointwise and in order. Otherwise the error is that of the first failing element. |
| Bulk.PlainBody | index_data.py:35-38 | The body has length 2n. Entry 2i is the action naming the index. Entry 2i+1 is document i, unchanged. |
| Bulk.PlainBodyWellFormed | index_data.py:35-38 | The body alternates action and source lines, starting with an action. |
| Bulk.PlainBodySources | index_with_pipeline.py:56-59 | The documents read back from the body are exactly the input documents, in order. |
| Bulk.PlainBodyTargets | embed.py:70-71 | The body has one action per document, and every action targets the given index. |
| Bulk.PairWithActions | index_data.py:35-38 | The append loop builds exactly the plain body. |
| Bulk.Augment | embed.py:73-81 | Without a model the document is unchanged. With a model it succeeds exactly when `explanation` is a string, and a missing one raises KeyError. The result has the document's keys plus `embedding`. `embedding` is the encoding of the explanation, overwriting any old value, and every other field is kept. |
| Bulk.AugmentAllSpec | embed.py:70-81 | Augmenting the corpus succeeds exactly when every document can be augmented. The augmented documents are then pointwise and in order. Otherwise the error is the first document's error. |
| Bulk.EmbeddedBody | embed.py:69-81 | The embedded body exists exactly when every document can be augmented. It is then well formed and carries exactly the augmented documents, in order. |
| Bulk.NoModelIsPlain | embed.py:80-81 | Without a model, embed.py sends the same body as the other scripts. |
| Bulk.EmbeddedBodyAt | embed.py:69-81 | With a model, the body has length 2n. Entry 2i targets the index. Entry 2i+1 is document i with `embedding` set to the encoding of its explanation. |
| Bulk.BuildEmbeddedBody | embed.py:69-81 | The loop builds the embedded body, or stops with the error of the first document that cannot be augmented. |
| Engine.ApplyPlainBody | index_data.py:40 | A bulk call with the body built for n > 0 documents appends them, in order, to the one index it names. It creates that index if absent and leaves every other index unchanged. |
| Engine.BulkReply | index_data.py:40 | A bulk call fails on transport error, on an empty body and on a body that does not alternate. It succeeds only for a well-formed body. |
| Engine.Store.Exists | index_data.py:15 | The engine answers whether the index exists, or fails. |
| Engine.Store.Create | index_data.py:23 | Create adds an empty index with the mapping. It fails if the index exists, and then changes nothing. |
| Engine.Store.Delete | embed.py:46 | Delete removes the index. An absent index is not an error under `ignore_unavailable`. |
| Engine.Store.PutPipeline | index_with_pipeline.py:38 | The pipeline body is stored under its id, replacing any earlier one. |
| Engine.Store.BulkIndex | index_with_pipeline.py:61 | A bulk call that succeeds is logged. It applies the body only when no pipeline is named or the named one is registered, and otherwise stores nothing. A failed call changes nothing. |
| Indexing.CheckIndexExists | index_data.py:13-17 | The result is the engine's answer. A failure is re-raised as ConnectionError("Error checking if index exists"). |
| Indexing.CreateIfAbsentSpec | index_with_pipeline.py:44-50 | Create-if-absent only ever adds the index, empty and with the given mapping, and leaves an existing index exactly as it was. Without faults the index exists afterwards. |
| Indexing.CreateIfAbsentIdempotent | index_data.py:20-29 | With the same set of failing calls, calling `_create_index` twice leaves the store as calling it once, and the second call creates nothing. Once the index exists, a later call changes nothing, whatever fails then. |
| Indexing.CreateIfAbsentRaising | index_with_pipeline.py:44-50 | The raising `_create_index` creates only when the check says absent. A check or create failure is re-raised as ConnectionError("Error creating index"). |
| IndexData.CreateIndex | index_data.py:20-29 | `_create_index` never raises. It creates with a dynamic mapping only when the index is absent and every call succeeds, and otherwise changes nothing. |
| IndexData.InsertDocuments | index_data.py:32-44 | One bulk call with the plain body and no pipeline. A failure is re-raised as ConnectionError("Error inserting documents") and changes nothing. |
| IndexData.InsertAppends | index_data.py:35-40 | An empty corpus makes the bulk call fail. Otherwise the documents are appended unchanged, in order, to the index. |
| IndexData.IndexCorpus | index_data.py:56-65 | `index_data` creates the index if absent, then inserts. Every error is caught. Exactly one bulk request is logged when it goes through, and the pipelines are unchanged. |
| IndexData.RerunDuplicates | index_data.py:56-65 | Running `index_data` twice stores the corpus twice. |
| Embed.CreateIndex | embed.py:22-41 | Create-if-absent with a 768-dimension `embedding` field. Failures are re-raised as ConnectionError. |
| Embed.DimensionsDisagree | embed.py:22-59 | The two creation paths declare the same `embedding` field with 768 and 384 dimensions. |
| Embed.DeleteAndCreateIndex | embed.py:44-63 | Delete (absent is fine), then create with 384 dimensions. A failure of either is re-raised as ConnectionError("Error deleting and creating index"), and a failed create leaves the index deleted. |
| Embed.RecreateFresh | embed.py:46-59 | After a successful recreate, the index exists, is empty and has the 384-dimension mapping, whether or not it existed before. No other index changes. |
| Embed.InsertReply | embed.py:66-89 | A body is sent exactly when the corpus is non-empty, every document can be augmented and the bulk call goes through. The body is then the plain body over the augmented documents, and well formed. An augmentation failure is the first failing document's error. |
| Embed.InsertDocuments | embed.py:66-89 | Either the embedded body is sent in one bulk call without a pipeline, or the augmentation or bulk error is re-raised as ConnectionError and nothing changes. |
| Embed.IndexCorpus | embed.py:102-112 | `index_data` recreates the index, then inserts. Every error is caught. At most the one body sent is logged, and the pipelines are unchanged. |
| Embed.ReindexResult | embed.py:102-112 | When every call succeeds, the indices afterwards map the index to the 384-dimension mapping holding exactly the augmented corpus. No other index changes. |
| Embed.ReindexContents | embed.py:102-112 | When every call succeeds, the index holds exactly the augmented corpus, one stored document per input, in order. Other indices are unchanged. |
| Embed.ReindexIdempotent | embed.py:102-112 | With the same set of failing calls, reindexing twice leaves the indices as reindexing once, so documents do not accumulate. Only the bulk log differs: it records both requests. |
| Embed.ReindexTouchesOnlyName | embed.py:102-112 | A run of `index_data` changes no index but the one it is given. |
| Embed.ReindexForgetsEarlierRuns | embed.py:44-59 | Whatever failed in an earlier run, a run whose delete and create go through leaves the indices as if the earlier run had not happened. The bulk log still records the earlier run's request. |
| IndexWithPipeline.ProcessorsRoundTrip | index_with_pipeline.py:24-35 | A processor list can be read back from its JSON form. |
| IndexWithPipeline.PipelineRoundTrip | index_with_pipeline.py:22-36 | A pipeline body can be read back into its description and processors. |
| IndexWithPipeline.PipelineBodyProcessors | index_with_pipeline.py:22-36 | The registered pipeline holds exactly two processors, both `html_strip` on `explanation`. |
| IndexWithPipeline.CreatePipeline | index_with_pipeline.py:20-41 | `create_pipeline` registers the body under the id. A failure is swallowed, the result is None and nothing changes. |
| IndexWithPipeline.CreateIndex | index_with_pipeline.py:44-50 | Create-if-absent with the default mapping. Failures are re-raised as ConnectionError. |
| IndexWithPipeline.InsertDocuments | index_with_pipeline.py:53-65 | The plain body is sent with the pipeline id unchanged. A failure is re-raised as ConnectionError and changes nothing. |
| IndexWithPipeline.IndexCorpus | index_with_pipeline.py:77-86 | `index_data` creates the index if absent, then inserts through the pipeline. Every error is caught. It registers no pipeline, and at most the one body sent is logged. |
| IndexWithPipeline.CorpusRoutedThroughPipeline | index_with_pipeline.py:77-86 | When every call succeeds and the pipeline is registered, the index holds what it held followed by each document as sent, tagged with the pipeline. No other index changes. |
| IndexWithPipeline.UnregisteredPipelineStoresNothing | index_with_pipeline.py:77-86 | When the pipeline is not registered, a run stores no document: the indices are as create-if-absent left them. |
| IndexWithPipeline.IndexCorpusRegistered | index_with_pipeline.py:20-41 | The corrected driver registers the pipeline (a failure is swallowed), then runs `index_data` against the pipelines that leaves. It sends at most the one bulk request, which is logged when it goes through. |
| IndexWithPipeline.RegisteredCorpusStored | index_with_pipeline.py:77-86 | With registration first and every call succeeding, the index holds what it held followed by each document, tagged with the pipeline, whatever was registered before. |
| SearchApi.RequestFor | main.py:26-46 | No search is issued exactly when the query is None or empty. Otherwise the request targets the given index with filter path `hits.hits._source`, and its body reads back as (query, skip, limit). |
| SearchApi.Search | main.py:25-56 | A blank query never raises. Every answer is an envelope with exactly `status` "success" and `data`. An exception comes from the engine's answer or from projecting its hits. |
| SearchApi.QueryBodyRoundTrip | main.py:36-45 | The body carries the raw query, the fields `title`, `explanation`, `authors` in that order, `from` = skip and `size` = limit. |
| SearchApi.DefaultPaging | main.py:25 | Called without paging arguments, the search (as written and as corrected) is the search with skip 0 and limit 10, and the body then asks for `from` 0 and `size` 10. |
| SearchApi.BlankQueryShortCircuits | main.py:26-27 | A blank query returns `{"status": "success", "data": []}`, whatever the engine would do. |
| SearchApi.EngineErrorReraised | main.py:54-56 | The result depends on the engine only through its answer to the one request. An exception it raises comes back unchanged. |
| SearchApi.ProjectHits | main.py:49 | Projecting hits succeeds exactly when every hit is a dict with a `_source`. The sources are then in hit order, one per hit. Otherwise the KeyError or TypeError of the first bad hit is raised. |
| SearchApi.SearchProjectsHits | main.py:49-51 | For a list of hits, the search succeeds exactly when every hit has a `_source`. `data` is then the sources in hit order, one per hit, with status "success". Otherwise the error of the first bad hit is raised. |
| SearchApi.NoMatchRaises | main.py:49 | As written, a query matching nothing raises KeyError('hits'). |
| SearchApi.CorrectedSearchReturnsMatches | main.py:49 | The corrected search returns the matching sources, in order, for any number of matches including none. |
| SearchApi.CorrectionAgrees | main.py:49 | Wherever the projection as written succeeds, the corrected one gives the same result. |
| Utils.FormatDocsPerYear | utils.py:1-12 | The append loop computes exactly the formatted result, or its error. |
| Utils.YearCountSpec | utils.py:7-9 | A dict bucket gives a record with exactly `year` and `count`, holding `key_as_string` and `doc_count`, or None where one is missing. Any other bucket raises AttributeError. |
| Utils.FormattedSpec | utils.py:6-9 | There is one record per bucket, in bucket order, each built from its own bucket. The call fails only when a bucket is not a dict, and then with AttributeError. |
| Utils.MissingPathIsEmpty | utils.py:4 | A missing `aggregations`, `docs_per_year` or `buckets` gives the empty list. |
| Utils.NonDictResponseRaises | utils.py:4 | A response that is not a dict raises AttributeError. |
| Utils.TwoYears | utils.py:6-12 | Buckets 2020/3 and 2021/5 flatten to `[{year: "2020", count: 3}, {year: "2021", count: 5}]`, in order. |

## Findings

| source | as written | input that shows it | evidently intended | confidence | as-written member | corrected member |
|---|---|---|---|---|---|---|
| index_with_pipeline.py:77-86 | `index_data` sends the bulk request with `pipeline=pipeline_id`, and no code in the file calls `create_pipeline` | `index_data(index_name, "apod_pipeline")` against an engine where `apod_pipeline` was never registered: every document is refused (no such pipeline), none is stored, and "Data indexing completed" is still printed. | call `create_pipeline(client, pipeline_id)` before inserting | low (the pipeline may have been registered by hand beforehand); not executed | IndexWithPipeline.UnregisteredPipelineStoresNothing | IndexWithPipeline.IndexCorpusRegistered |
| main.py:49 | `response['hits']['hits']` | A non-blank query that matches no document. Under `filter_path=['hits.hits._source']` Elasticsearch drops the empty path and answers `{}`, so `response['hits']` raises KeyError and the endpoint fails. | `response.get('hits', {}).get('hits', [])`: an empty `data` list | medium (depends on the engine's filtering of empty paths); not executed | SearchApi.NoMatchRaises | SearchApi.SearchCorrected |

`SearchApi.Search` models the code as written. `SearchApi.SearchCorrected` is the fix, and `SearchApi.CorrectedSearchReturnsMatches` and `SearchApi.CorrectionAgrees` are proved about it. `IndexWithPipeline.IndexCorpus` models the pipeline driver as written, and `IndexWithPipeline.RegisteredCorpusStored` is proved about the corrected `IndexWithPipeline.IndexCorpusRegistered`.

## Left out

- `read_data` (all three scripts): file I/O and JSON parsing. The drivers take the list it returns as a parameter. Its fallback to `[]` on failure is covered by passing `[]`.
- services.py (`get_client`, `client.info()`) and settings.py (environment and `.env` loading) are not part of this model. Index names and the pipeline id are parameters. A failure of `get_client` in `search` is part of the engine's answer, and in the drivers it would end the run before any store call.
- FastAPI, the CORS middleware, HTTP parameter parsing, and every `print`/`pprint`.
- The `__main__` blocks, including the list passed as `pipeline_id` and the undefined `settings.pipeline_index`.
- test.py: an ad hoc query script with no assertions.
- Elasticsearch internals:
  - relevance ranking and what a search returns;
  - what `html_strip` removes: stored documents record the pipeline they went through, not its effect;
  - the checking of vector dimensions;
  - per-item bulk failures, except the one this model needs: documents routed through a pipeline that is not registered are all refused. Otherwise a bulk call is modelled as succeeding or failing as a whole;
  - the text of error messages.
- The sentence-transformer model: `encode` is an uninterpreted function to an opaque vector type, so no floating point is modelled.
- Bulk.Augment: the model refuses a non-string `explanation` (`EncodeFailure`). The real encoder's behaviour on other inputs is foreign.
- Python's dict ordering: a dict is a `map`, so key order is not recorded. Iterating a non-empty dict only matters here through the error its first key causes, which is the same for every key.
- Engine.Store: the set of failing calls is fixed for the store's lifetime, so a kind of call that fails once fails every time. A failure that differs between calls of one run (a transient outage) is not modelled. `Embed.ReindexIdempotent` and the first half of `Indexing.CreateIfAbsentIdempotent` hold for a fixed set of failing calls. `Embed.ReindexForgetsEarlierRuns` and the second half cover runs with different failures.
- Engine.ApplyBulk: auto-creating a missing index with a dynamic mapping is the engine's default. The settings that disable it are not modelled.
