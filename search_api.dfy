/** main.py: the `/search` endpoint. A blank query is answered at once; any
    other query becomes one `multi_match` search over three fields, and the
    hits are projected to their `_source` inside a success envelope. */
module SearchApi {
  import opened Errors
  import opened Json
  import opened Traverse

  const SearchFields: seq<string> := ["title", "explanation", "authors"]
  const SourceFilter := "hits.hits._source"
  const DefaultSkip := 0
  const DefaultLimit := 10

  /** One call of the client's `search`: the index, the request body and
      the response filter. */
  datatype SearchRequest = SearchRequest(index: string, body: Value, filterPath: seq<string>)

  /** The engine, reached through a client made for the call: its response,
      or what was raised (by `get_client` or by `search`). */
  type Searcher = SearchRequest -> Result<Value>

  function StrArray(strings: seq<string>): Value
  {
    Arr(seq(|strings|, i requires 0 <= i < |strings| => Str(strings[i])))
  }

  /** The request body: a `multi_match` of the raw query over SearchFields,
      paged by `from` and `size`. */
  function QueryBody(query: string, skip: int, limit: int): Value
  {
    Obj(map["query" := Obj(map["multi_match" := Obj(map["query" := Str(query), "fields" := StrArray(SearchFields)])]),
            "from" := Int(skip),
            "size" := Int(limit)])
  }

  /** Reads a body of exactly that shape back into its query, offset and page
      size; any other value, or other fields, reads as None. */
  function ReadQueryBody(body: Value): Option<(string, int, int)>
  {
    if body.Obj? && body.fields.Keys == {"query", "from", "size"}
       && body.fields["from"].Int? && body.fields["size"].Int?
       && body.fields["query"].Obj? && body.fields["query"].fields.Keys == {"multi_match"}
    then
      var clause := body.fields["query"].fields["multi_match"];
      if clause.Obj? && clause.fields.Keys == {"query", "fields"} && clause.fields["query"].Str?
         && clause.fields["fields"] == StrArray(SearchFields)
      then Some((clause.fields["query"].s, body.fields["from"].i, body.fields["size"].i))
      else None
    else None
  }

  /** `if not query`: no query, or the empty string. */
  predicate IsBlank(query: Option<string>)
  {
    query == None || query == Some("")
  }

  /** The search `search` issues, or None when it issues none. */
  function RequestFor(index: string, query: Option<string>, skip: int, limit: int): (r: Option<SearchRequest>)
    ensures r.None? <==> IsBlank(query)
    ensures r.Some? ==>
      && r.value.index == index
      && r.value.filterPath == [SourceFilter]
      && ReadQueryBody(r.value.body) == Some((query.value, skip, limit))
  {
    if IsBlank(query) then None
    else Some(SearchRequest(index, QueryBody(query.value, skip, limit), [SourceFilter]))
  }

  /** `{"status": "success", "data": data}` */
  function Envelope(data: seq<Value>): Value
  {
    Obj(map["status" := Str("success"), "data" := Arr(data)])
  }

  /** `hit['_source']` */
  function SourceOf(hit: Value): Result<Value>
  {
    Subscript(hit, "_source")
  }

  /** `[hit['_source'] for hit in response['hits']['hits']]`. Iterating a
      dict yields its keys, strings, whose subscript by a string raises
      TypeError; so does iterating a number, a bool or None. */
  function HitSources(response: Value): Result<seq<Value>>
  {
    var outer :- Subscript(response, "hits");
    var inner :- Subscript(outer, "hits");
    match Iterate(inner)
    case Elements(hits) => MapAll(hits, SourceOf)
    case DictKeys(keys) => if keys == {} then Ok([]) else Err(TypeError("string indices must be integers"))
    case NotIterable => Err(TypeError("object is not iterable"))
  }

  /** `search`, answering for the index `settings.index_name` names. Every
      exception is printed and re-raised unchanged. A blank query never
      raises, and every answer is a success envelope. */
  function Search(index: string, engine: Searcher, query: Option<string>,
                  skip: int := DefaultSkip, limit: int := DefaultLimit): (r: Result<Value>)
    ensures IsBlank(query) ==> r.Ok?
    ensures r.Err? ==> engine(RequestFor(index, query, skip, limit).value).Err? || HitSources(engine(RequestFor(index, query, skip, limit).value).value).Err?
    ensures r.Ok? ==> r.value.Obj? && r.value.fields.Keys == {"status", "data"} && r.value.fields["status"] == Str("success")
  {
    match RequestFor(index, query, skip, limit)
    case None => Ok(Envelope([]))
    case Some(request) =>
      var response :- engine(request);
      var data :- HitSources(response);
      Ok(Envelope(data))
  }

  /** The body carries the raw query, the three fields in order, and the
      paging it was given. */
  lemma QueryBodyRoundTrip(query: string, skip: int, limit: int)
    ensures ReadQueryBody(QueryBody(query, skip, limit)) == Some((query, skip, limit))
    ensures QueryBody(query, skip, limit).fields["query"].fields["multi_match"].fields["fields"]
            == Arr([Str("title"), Str("explanation"), Str("authors")])
  {
  }

  /** Without paging arguments the search asks for the first ten hits, as
      written and as corrected. */
  lemma DefaultPaging(index: string, engine: Searcher, query: Option<string>)
    ensures Search(index, engine, query) == Search(index, engine, query, 0, 10)
    ensures SearchCorrected(index, engine, query) == SearchCorrected(index, engine, query, 0, 10)
    ensures !IsBlank(query) ==> ReadQueryBody(RequestFor(index, query, 0, 10).value.body) == Some((query.value, 0, 10))
  {
  }

  /** A blank query is answered with an empty success envelope, whatever the
      engine would have done: no search is issued. */
  lemma BlankQueryShortCircuits(index: string, engine: Searcher, other: Searcher, query: Option<string>, skip: int, limit: int)
    requires IsBlank(query)
    ensures Search(index, engine, query, skip, limit) == Ok(Envelope([]))
    ensures Search(index, engine, query, skip, limit) == Search(index, other, query, skip, limit)
  {
  }

  /** A non-blank query depends on the engine only through its answer to the
      one request issued, and an exception it raises comes back unchanged. */
  lemma EngineErrorReraised(index: string, engine: Searcher, other: Searcher, query: Option<string>, skip: int, limit: int)
    requires !IsBlank(query)
    ensures var request := RequestFor(index, query, skip, limit).value;
      && (engine(request) == other(request) ==>
            Search(index, engine, query, skip, limit) == Search(index, other, query, skip, limit))
      && (engine(request).Err? ==> Search(index, engine, query, skip, limit) == Err(engine(request).error))
  {
  }

  /** Projecting a list of hits succeeds exactly when every hit is a dict
      with a `_source`; it then yields the sources in hit order, and
      otherwise the KeyError or TypeError of the first hit without one. */
  lemma ProjectHits(hits: seq<Value>)
    ensures MapAll(hits, SourceOf).Ok? <==> forall i :: 0 <= i < |hits| ==> hits[i].Obj? && "_source" in hits[i].fields
    ensures MapAll(hits, SourceOf).Ok? ==>
      var data := MapAll(hits, SourceOf).value;
      |data| == |hits| && forall i :: 0 <= i < |hits| ==> data[i] == hits[i].fields["_source"]
    ensures MapAll(hits, SourceOf).Err? ==>
      var e := MapAll(hits, SourceOf).error;
      FirstFailure(hits, SourceOf, e) && (e == KeyError("_source") || e.TypeError?)
  {
    MapAllSpec(hits, SourceOf);
    if MapAll(hits, SourceOf).Err? {
      var e := MapAll(hits, SourceOf).error;
      var i :| 0 <= i < |hits| && SourceOf(hits[i]) == Err(e) && forall j :: 0 <= j < i ==> SourceOf(hits[j]).Ok?;
    }
  }

  /** For a response holding a list of hits, the search succeeds exactly
      when every hit has a `_source`; it then returns the sources in hit
      order with `status` "success", and otherwise raises the error of the
      first hit without one. */
  lemma SearchProjectsHits(index: string, engine: Searcher, query: Option<string>, skip: int, limit: int, hits: seq<Value>)
    requires !IsBlank(query)
    requires engine(RequestFor(index, query, skip, limit).value) == Ok(Obj(map["hits" := Obj(map["hits" := Arr(hits)])]))
    ensures var r := Search(index, engine, query, skip, limit);
      && (r.Ok? <==> forall i :: 0 <= i < |hits| ==> hits[i].Obj? && "_source" in hits[i].fields)
      && (r.Ok? ==>
            && r.value.Obj? && r.value.fields.Keys == {"status", "data"}
            && r.value.fields["status"] == Str("success")
            && r.value.fields["data"].Arr?
            && |r.value.fields["data"].items| == |hits|
            && forall i :: 0 <= i < |hits| ==> r.value.fields["data"].items[i] == hits[i].fields["_source"])
      && (r.Err? ==> FirstFailure(hits, SourceOf, r.error))
  {
    var projected := MapAll(hits, SourceOf);
    assert HitSources(Obj(map["hits" := Obj(map["hits" := Arr(hits)])])) == projected;
    assert Search(index, engine, query, skip, limit) ==
      match projected
      case Ok(data) => Ok(Envelope(data))
      case Err(e) => Err(e);
    ProjectHits(hits);
  }

  /** What the engine answers under the `hits.hits._source` filter: each hit
      reduced to its `_source`. The filter drops paths that hold nothing, so
      when no document matches the response is the empty object. */
  function FilteredResponse(sources: seq<Value>): Value
  {
    if sources == [] then Obj(map[])
    else Obj(map["hits" := Obj(map["hits" := Arr(seq(|sources|, i requires 0 <= i < |sources| => Obj(map["_source" := sources[i]])))])])
  }

  /** As written, a query that matches no document raises KeyError('hits')
      instead of returning an empty list. */
  lemma NoMatchRaises(index: string, engine: Searcher, query: Option<string>, skip: int, limit: int)
    requires !IsBlank(query)
    requires engine(RequestFor(index, query, skip, limit).value) == Ok(FilteredResponse([]))
    ensures Search(index, engine, query, skip, limit) == Err(KeyError("hits"))
  {
  }

  /** The evidently intended projection, reading the hits with defaults:
      `response.get('hits', {}).get('hits', [])`. */
  function HitSourcesOrNone(response: Value): Result<seq<Value>>
  {
    var outer :- Get(response, "hits", Obj(map[]));
    var inner :- Get(outer, "hits", Arr([]));
    match Iterate(inner)
    case Elements(hits) => MapAll(hits, SourceOf)
    case DictKeys(keys) => if keys == {} then Ok([]) else Err(TypeError("string indices must be integers"))
    case NotIterable => Err(TypeError("object is not iterable"))
  }

  /** `search` with the corrected projection. */
  function SearchCorrected(index: string, engine: Searcher, query: Option<string>,
                           skip: int := DefaultSkip, limit: int := DefaultLimit): Result<Value>
  {
    match RequestFor(index, query, skip, limit)
    case None => Ok(Envelope([]))
    case Some(request) =>
      var response :- engine(request);
      var data :- HitSourcesOrNone(response);
      Ok(Envelope(data))
  }

  /** The corrected search returns the sources of the matching documents, in
      order, however many there are, none included. */
  lemma CorrectedSearchReturnsMatches(index: string, engine: Searcher, query: Option<string>, skip: int, limit: int, sources: seq<Value>)
    requires !IsBlank(query)
    requires engine(RequestFor(index, query, skip, limit).value) == Ok(FilteredResponse(sources))
    ensures SearchCorrected(index, engine, query, skip, limit) == Ok(Envelope(sources))
  {
    if sources != [] {
      var hits := seq(|sources|, i requires 0 <= i < |sources| => Obj(map["_source" := sources[i]]));
      MapAllSpec(hits, SourceOf);
      assert MapAll(hits, SourceOf).value == sources;
    }
  }

  /** Wherever the search as written succeeds, the corrected one answers the
      same. */
  lemma CorrectionAgrees(response: Value)
    requires HitSources(response).Ok?
    ensures HitSourcesOrNone(response) == HitSources(response)
  {
  }
}
