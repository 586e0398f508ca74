/** What the three indexing scripts share: `_check_index_exists`, which each
    of them defines identically, and create-if-absent, which embed.py and
    index_with_pipeline.py define with different mappings and index_data.py
    defines without raising. */
module Indexing {
  import opened Errors
  import opened Engine

  const CheckContext := "Error checking if index exists"
  const CreateContext := "Error creating index"
  const InsertContext := "Error inserting documents"

  /** `_check_index_exists`: the engine's answer, with a failure re-raised as
      ConnectionError. */
  method CheckIndexExists(store: Store, name: string) returns (r: Result<bool>)
    ensures r.Ok? <==> OpExists !in store.failing
    ensures r.Ok? ==> (r.value <==> name in store.indices)
    ensures r.Err? ==> r.error == ConnectionError(CheckContext, EngineFailure(OpExists))
  {
    var answer := store.Exists(name);
    r := Wrap(CheckContext, answer);
  }

  /** What the raising `_create_index` returns: Ok(true) when it created the
      index (it returns the engine's acknowledgement), Ok(false) when the
      index was there (it returns None). Any error, the existence check's
      ConnectionError included, is wrapped once more. */
  function CreateIfAbsentReply(failing: set<Op>, indices: Indices, name: string): Result<bool>
  {
    if OpExists in failing then Err(ConnectionError(CreateContext, ConnectionError(CheckContext, EngineFailure(OpExists))))
    else if name in indices then Ok(false)
    else if OpCreate in failing then Err(ConnectionError(CreateContext, EngineFailure(OpCreate)))
    else Ok(true)
  }

  /** The indices after `_create_index` with the given mapping. */
  function CreateIfAbsent(failing: set<Op>, indices: Indices, name: string, mapping: Mapping): Indices
  {
    if CreateIfAbsentReply(failing, indices, name) == Ok(true) then indices[name := Index(mapping, [])]
    else indices
  }

  /** Create-if-absent only ever adds `name`, empty and with the given
      mapping; without faults the index exists afterwards, and an index that
      was there is left exactly as it was. */
  lemma CreateIfAbsentSpec(failing: set<Op>, indices: Indices, name: string, mapping: Mapping)
    ensures var after := CreateIfAbsent(failing, indices, name, mapping);
      && (after.Keys == indices.Keys || after.Keys == indices.Keys + {name})
      && (forall k :: k in indices ==> k in after && after[k] == indices[k])
      && (name !in indices && name in after ==> after[name] == Index(mapping, []))
      && (OpExists !in failing && OpCreate !in failing ==> name in after)
      && (name in indices ==> after == indices)
  {
  }

  /** Calling `_create_index` twice with the same set of failing calls
      leaves the store as calling it once, and the second call creates
      nothing. Once the index exists, a later call changes nothing whatever
      fails then. */
  lemma CreateIfAbsentIdempotent(failing: set<Op>, later: set<Op>, indices: Indices, name: string, mapping: Mapping)
    ensures var once := CreateIfAbsent(failing, indices, name, mapping);
      && CreateIfAbsent(failing, once, name, mapping) == once
      && CreateIfAbsentReply(failing, once, name) != Ok(true)
      && (name in once ==> CreateIfAbsent(later, once, name, mapping) == once)
  {
  }

  /** `_create_index` of embed.py and index_with_pipeline.py. */
  method CreateIfAbsentRaising(store: Store, name: string, mapping: Mapping) returns (r: Result<bool>)
    modifies store
    ensures r == CreateIfAbsentReply(store.failing, old(store.indices), name)
    ensures store.indices == CreateIfAbsent(store.failing, old(store.indices), name, mapping)
    ensures store.pipelines == old(store.pipelines) && store.bulkLog == old(store.bulkLog)
  {
    var present := CheckIndexExists(store, name);
    if present.Err? {
      return Err(ConnectionError(CreateContext, present.error));
    }
    if present.value {
      return Ok(false);
    }
    var created := store.Create(name, mapping);
    if created.Err? {
      return Err(ConnectionError(CreateContext, created.error));
    }
    r := Ok(true);
  }
}
