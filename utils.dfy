/** utils.py: `format_docs_per_year`, which flattens the buckets of the
    `docs_per_year` aggregation of a search response into `{year, count}`
    records. */
module Utils {
  import opened Errors
  import opened Json
  import opened Traverse

  /** `response.get('aggregations', {}).get('docs_per_year', {}).get('buckets', [])`:
      a missing level reads as its default; a level that is not a dict
      raises AttributeError. */
  function BucketsValue(response: Value): Result<Value>
  {
    var aggregations :- Get(response, "aggregations", Obj(map[]));
    var perYear :- Get(aggregations, "docs_per_year", Obj(map[]));
    Get(perYear, "buckets", Arr([]))
  }

  /** The buckets `for bucket in buckets` visits. A dict yields its keys,
      strings, on the first of which `bucket.get` raises AttributeError;
      that error is reported here. A number, a bool or None is not
      iterable. */
  function Buckets(response: Value): Result<seq<Value>>
  {
    var buckets :- BucketsValue(response);
    match Iterate(buckets)
    case Elements(items) => Ok(items)
    case DictKeys(keys) => if keys == {} then Ok([]) else Err(AttributeError("get"))
    case NotIterable => Err(TypeError("object is not iterable"))
  }

  /** One bucket's record; a missing field reads as None. */
  function YearCount(bucket: Value): Result<Value>
  {
    var year :- Get(bucket, "key_as_string", Null);
    var count :- Get(bucket, "doc_count", Null);
    Ok(Obj(map["year" := year, "count" := count]))
  }

  /** What `format_docs_per_year` returns or raises. */
  function Formatted(response: Value): Result<seq<Value>>
  {
    var buckets :- Buckets(response);
    MapAll(buckets, YearCount)
  }

  /** `format_docs_per_year`: the append loop over the buckets. */
  method FormatDocsPerYear(response: Value) returns (r: Result<seq<Value>>)
    ensures r == Formatted(response)
  {
    var buckets := Buckets(response);
    if buckets.Err? {
      return Err(buckets.error);
    }
    var items := buckets.value;
    var formatted: seq<Value> := [];
    for i := 0 to |items|
      invariant MapAll(items[..i], YearCount) == Ok(formatted)
    {
      var bucket := items[i];
      MapAllOneMore(items, YearCount, i);
      var year := Get(bucket, "key_as_string", Null);
      if year.Err? {
        MapAllFailureSticks(items, YearCount, i + 1);
        return Err(year.error);
      }
      var count := Get(bucket, "doc_count", Null);
      if count.Err? {
        MapAllFailureSticks(items, YearCount, i + 1);
        return Err(count.error);
      }
      formatted := formatted + [Obj(map["year" := year.value, "count" := count.value])];
    }
    assert items[..|items|] == items;
    r := Ok(formatted);
  }

  /** `bucket.get(key)` on a dict: the stored value, or None. */
  function FieldOrNull(bucket: map<string, Value>, key: string): Value
  {
    if key in bucket then bucket[key] else Null
  }

  /** A bucket that is a dict always yields a record with exactly the keys
      `year` and `count`, holding its `key_as_string` and `doc_count` or None
      where one is missing; its other fields are dropped. Any other bucket
      raises AttributeError. */
  lemma YearCountSpec(bucket: Value)
    ensures YearCount(bucket).Ok? <==> bucket.Obj?
    ensures bucket.Obj? ==>
      YearCount(bucket) == Ok(Obj(map["year" := FieldOrNull(bucket.fields, "key_as_string"),
                                      "count" := FieldOrNull(bucket.fields, "doc_count")]))
    ensures !bucket.Obj? ==> YearCount(bucket) == Err(AttributeError("get"))
  {
  }

  /** For a response whose buckets are a list, the result has one record per
      bucket, in bucket order, each built from its own bucket; it fails only
      when some bucket is not a dict, and then with AttributeError. */
  lemma FormattedSpec(response: Value, buckets: seq<Value>)
    requires Buckets(response) == Ok(buckets)
    ensures Formatted(response).Ok? <==> forall i :: 0 <= i < |buckets| ==> buckets[i].Obj?
    ensures Formatted(response).Ok? ==>
      var records := Formatted(response).value;
      && |records| == |buckets|
      && forall i :: 0 <= i < |buckets| ==>
           && records[i].Obj? && records[i].fields.Keys == {"year", "count"}
           && records[i].fields["year"] == FieldOrNull(buckets[i].fields, "key_as_string")
           && records[i].fields["count"] == FieldOrNull(buckets[i].fields, "doc_count")
    ensures Formatted(response).Err? ==> Formatted(response).error == AttributeError("get")
  {
    MapAllSpec(buckets, YearCount);
    forall i | 0 <= i < |buckets|
      ensures YearCount(buckets[i]).Ok? <==> buckets[i].Obj?
    {
      YearCountSpec(buckets[i]);
    }
    if Formatted(response).Err? {
      var e := Formatted(response).error;
      var i :| 0 <= i < |buckets| && YearCount(buckets[i]) == Err(e) && forall j :: 0 <= j < i ==> YearCount(buckets[j]).Ok?;
      YearCountSpec(buckets[i]);
    }
  }

  /** A response that lacks `aggregations`, `docs_per_year` or `buckets`
      gives the empty list rather than an error. */
  lemma MissingPathIsEmpty(response: map<string, Value>)
    requires || "aggregations" !in response
             || (response["aggregations"].Obj? && "docs_per_year" !in response["aggregations"].fields)
             || (response["aggregations"].Obj? && response["aggregations"].fields["docs_per_year"].Obj?
                 && "buckets" !in response["aggregations"].fields["docs_per_year"].fields)
    ensures Formatted(Obj(response)) == Ok([])
  {
  }

  /** A response that is not a dict raises AttributeError. */
  lemma NonDictResponseRaises(response: Value)
    requires !response.Obj?
    ensures Formatted(response) == Err(AttributeError("get"))
  {
  }

  /** Two yearly buckets flatten into two records in the same order. */
  lemma TwoYears()
    ensures Formatted(Obj(map["aggregations" := Obj(map["docs_per_year" := Obj(map["buckets" := Arr([
              Obj(map["key_as_string" := Str("2020"), "doc_count" := Int(3), "key" := Int(1577836800000)]),
              Obj(map["key_as_string" := Str("2021"), "doc_count" := Int(5), "key" := Int(1609459200000)])])])])])) ==
            Ok([Obj(map["year" := Str("2020"), "count" := Int(3)]),
                Obj(map["year" := Str("2021"), "count" := Int(5)])])
  {
    var buckets := [Obj(map["key_as_string" := Str("2020"), "doc_count" := Int(3), "key" := Int(1577836800000)]),
                    Obj(map["key_as_string" := Str("2021"), "doc_count" := Int(5), "key" := Int(1609459200000)])];
    var response := Obj(map["aggregations" := Obj(map["docs_per_year" := Obj(map["buckets" := Arr(buckets)])])]);
    assert Buckets(response) == Ok(buckets);
    var r0 := Obj(map["year" := Str("2020"), "count" := Int(3)]);
    var r1 := Obj(map["year" := Str("2021"), "count" := Int(5)]);
    assert MapAll(buckets[..0], YearCount) == Ok([]);
    MapAllOneMore(buckets, YearCount, 0);
    assert YearCount(buckets[0]) == Ok(r0);
    assert MapAll(buckets[..0], YearCount).value + [r0] == [r0];
    assert MapAll(buckets[..1], YearCount) == Ok([r0]);
    MapAllOneMore(buckets, YearCount, 1);
    assert YearCount(buckets[1]) == Ok(r1);
    assert [r0] + [r1] == [r0, r1];
    assert buckets[..2] == buckets;
    assert MapAll(buckets, YearCount) == Ok([r0, r1]);
    assert Formatted(response) == Ok([r0, r1]);
  }
}
