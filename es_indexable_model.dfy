/**
 * The trait that puts Eloquent models into the search index: the bulk actions built per
 * chunk of models by `esReindexAll`, the running count and progress reports across chunks,
 * `esIndexIntoNew`, and the request maps of `esIndexDocument` / `esDeleteDocument`.
 */
module EsIndexableModel {
  import opened Wrappers
  import opened Strings
  import opened JsonValues

  /** The class-level settings `esIndexName()` and `esType()`. */
  datatype IndexSettings = IndexSettings(indexName: string, docType: string)

  /**
   * A model as the trait sees it: its key, `getEsId()`, `esRouting()`, `esShouldIndex()`
   * and `toEsJson()`.
   */
  datatype EsModel = EsModel(key: int, esId: Json, routing: Json, shouldIndex: bool, document: Json)

  /** A model that keeps the trait's own `esShouldIndex`, `getEsId` and `esRouting`. */
  function WithDefaults(key: int, document: Json): EsModel {
    EsModel(key, JNum(key), JNull, true, document)
  }

  // ---------------------------------------------------------------- bulk actions

  /** The bulk metadata of a model. */
  function Metadata(m: EsModel): map<string, Json> {
    map["_id" := m.esId, "routing" := m.routing]
  }

  /** What one model contributes to the bulk body: a delete, or an index entry and its document. */
  function ModelActions(m: EsModel): (r: seq<Json>)
    ensures |r| == if m.shouldIndex then 2 else 1
  {
    if !m.shouldIndex then [JObj(map["delete" := JObj(Metadata(m))])]
    else [JObj(map["index" := JObj(Metadata(m))]), m.document]
  }

  /** The bulk body for a chunk: the models' actions, in model order. */
  function Actions(models: seq<EsModel>): seq<Json> {
    if models == [] then []
    else Actions(models[..|models| - 1]) + ModelActions(models[|models| - 1])
  }

  lemma {:induction false} ActionsAppend(a: seq<EsModel>, b: seq<EsModel>)
    ensures Actions(a + b) == Actions(a) + Actions(b)
    decreases |b|
  {
    if b == [] {
      assert a + b == a;
    } else {
      var c := a + b;
      assert c[..|c| - 1] == a + b[..|b| - 1];
      assert c[|c| - 1] == b[|b| - 1];
      ActionsAppend(a, b[..|b| - 1]);
    }
  }

  /** Number of actions a list of models yields: 1 per deleted model, 2 per indexed model. */
  function Weight(models: seq<EsModel>): nat {
    if models == [] then 0
    else Weight(models[..|models| - 1]) + (if models[|models| - 1].shouldIndex then 2 else 1)
  }

  lemma {:induction false} ActionsLength(models: seq<EsModel>)
    ensures |Actions(models)| == Weight(models)
    ensures |Actions(models)| >= |models|
  {
    if models != [] {
      ActionsLength(models[..|models| - 1]);
    }
  }

  /**
   * Model `i`'s actions sit as one block in the body, right after the actions of the models
   * before it: for an indexed model the document immediately follows its index entry.
   */
  lemma ActionsInModelOrder(models: seq<EsModel>, i: nat)
    requires i < |models|
    ensures var at := |Actions(models[..i])|;
      && at + |ModelActions(models[i])| <= |Actions(models)|
      && Actions(models)[at..at + |ModelActions(models[i])|] == ModelActions(models[i])
  {
    var before, here, after := models[..i], models[..i + 1], models[i + 1..];
    assert models == here + after;
    assert here[..|here| - 1] == before;
    ActionsAppend(here, after);
    var at := |Actions(before)|;
    assert Actions(here) == Actions(before) + ModelActions(models[i]);
    assert Actions(models)[at..at + |ModelActions(models[i])|] == Actions(here)[at..];
  }

  /** The `foreach` of the chunk callback that fills `$actions`. */
  method BuildActions(models: seq<EsModel>) returns (actions: seq<Json>)
    ensures actions == Actions(models)
  {
    actions := [];
    var i := 0;
    while i < |models|
      invariant 0 <= i <= |models|
      invariant actions == Actions(models[..i])
    {
      var model := models[i];
      var metadata := Metadata(model);
      if !model.shouldIndex {
        actions := actions + [JObj(map["delete" := JObj(metadata)])];
      } else {
        actions := actions + [JObj(map["index" := JObj(metadata)])];
        actions := actions + [model.document];
      }
      assert models[..i + 1][..i] == models[..i];
      i := i + 1;
    }
    assert models[..i] == models;
  }

  // ---------------------------------------------------------------- bulk requests

  /** `options['index'] ?? esIndexName()`. */
  function TargetIndex(settings: IndexSettings, options: map<string, Json>): Json {
    if "index" in options && options["index"] != JNull then options["index"] else JStr(settings.indexName)
  }

  function BulkRequest(settings: IndexSettings, options: map<string, Json>, actions: seq<Json>): map<string, Json> {
    map[
      "index" := TargetIndex(settings, options),
      "type" := JStr(settings.docType),
      "body" := JArr(actions),
      "client" := JObj(map["timeout" := JNum(0)])
    ]
  }

  /** The search engine's answer to a bulk request. */
  datatype BulkResponse = BulkResponse(items: seq<Json>)

  /** The bulk request for a chunk; none when the chunk has no actions. */
  function ChunkRequest(settings: IndexSettings, options: map<string, Json>, chunk: seq<EsModel>): Option<map<string, Json>> {
    var actions := Actions(chunk);
    if actions == [] then None else Some(BulkRequest(settings, options, actions))
  }

  /** How much a chunk adds to the running count: the items of its bulk response. */
  function ChunkItems(settings: IndexSettings, options: map<string, Json>,
                      client: map<string, Json> -> BulkResponse, chunk: seq<EsModel>): nat
  {
    var request := ChunkRequest(settings, options, chunk);
    if request.None? then 0 else |client(request.value).items|
  }

  /** The running count after the given chunks. */
  function TotalCount(settings: IndexSettings, options: map<string, Json>,
                      client: map<string, Json> -> BulkResponse, chunks: seq<seq<EsModel>>): nat
  {
    if chunks == [] then 0
    else
      TotalCount(settings, options, client, chunks[..|chunks| - 1])
      + ChunkItems(settings, options, client, chunks[|chunks| - 1])
  }

  /** The bulk requests issued for the given chunks, in order. */
  function Requests(settings: IndexSettings, options: map<string, Json>, chunks: seq<seq<EsModel>>): seq<map<string, Json>> {
    if chunks == [] then []
    else
      var request := ChunkRequest(settings, options, chunks[|chunks| - 1]);
      Requests(settings, options, chunks[..|chunks| - 1]) + (if request.None? then [] else [request.value])
  }

  /** The values handed to `$progress`: the running count after each chunk. */
  function Reports(settings: IndexSettings, options: map<string, Json>,
                   client: map<string, Json> -> BulkResponse, chunks: seq<seq<EsModel>>): seq<nat>
  {
    if chunks == [] then []
    else Reports(settings, options, client, chunks[..|chunks| - 1]) + [TotalCount(settings, options, client, chunks)]
  }

  /** A chunk of models always yields actions, so the callback issues a bulk request for it. */
  lemma NonEmptyChunkIsSent(settings: IndexSettings, options: map<string, Json>, chunk: seq<EsModel>)
    requires chunk != []
    ensures ChunkRequest(settings, options, chunk).Some?
  {
    ActionsLength(chunk);
  }

  /** Every bulk request goes to `options['index']` when it is set, else to `esIndexName()`. */
  lemma {:induction false} RequestsTarget(settings: IndexSettings, options: map<string, Json>, chunks: seq<seq<EsModel>>)
    ensures forall r :: r in Requests(settings, options, chunks) ==>
      "index" in r && r["index"] == TargetIndex(settings, options) && "body" in r && r["body"] != JArr([])
  {
    if chunks != [] {
      RequestsTarget(settings, options, chunks[..|chunks| - 1]);
    }
  }

  /** Processing one more chunk: the three prefix functions each take one step. */
  lemma PrefixStep(settings: IndexSettings, options: map<string, Json>,
                   client: map<string, Json> -> BulkResponse, chunks: seq<seq<EsModel>>, i: nat)
    requires i < |chunks|
    ensures var request := ChunkRequest(settings, options, chunks[i]);
      && TotalCount(settings, options, client, chunks[..i + 1])
         == TotalCount(settings, options, client, chunks[..i]) + ChunkItems(settings, options, client, chunks[i])
      && Requests(settings, options, chunks[..i + 1])
         == Requests(settings, options, chunks[..i]) + (if request.None? then [] else [request.value])
      && Reports(settings, options, client, chunks[..i + 1])
         == Reports(settings, options, client, chunks[..i]) + [TotalCount(settings, options, client, chunks[..i + 1])]
  {
    assert chunks[..i + 1][..i] == chunks[..i];
  }

  /** One report per chunk, each the running count after that chunk. */
  lemma {:induction false} ReportsAreRunningCounts(settings: IndexSettings, options: map<string, Json>,
                                                  client: map<string, Json> -> BulkResponse, chunks: seq<seq<EsModel>>)
    ensures |Reports(settings, options, client, chunks)| == |chunks|
    ensures forall i :: 0 <= i < |chunks| ==>
      Reports(settings, options, client, chunks)[i] == TotalCount(settings, options, client, chunks[..i + 1])
  {
    if chunks != [] {
      var n := |chunks| - 1;
      var init := chunks[..n];
      ReportsAreRunningCounts(settings, options, client, init);
      var reports := Reports(settings, options, client, chunks);
      assert reports == Reports(settings, options, client, init) + [TotalCount(settings, options, client, chunks)];
      forall i | 0 <= i < n
        ensures reports[i] == TotalCount(settings, options, client, chunks[..i + 1])
      {
        assert init[..i + 1] == chunks[..i + 1];
      }
      assert chunks[..n + 1] == chunks;
    }
  }

  /**
   * The running count grows by exactly the items of each chunk's bulk response (by nothing
   * for a chunk that sends no request), so it never decreases.
   */
  lemma {:induction false} CountNeverDecreases(settings: IndexSettings, options: map<string, Json>,
                                              client: map<string, Json> -> BulkResponse, chunks: seq<seq<EsModel>>,
                                              i: nat, j: nat)
    requires i <= j <= |chunks|
    ensures TotalCount(settings, options, client, chunks[..i]) <= TotalCount(settings, options, client, chunks[..j])
    decreases j - i
  {
    if i < j {
      PrefixStep(settings, options, client, chunks, j - 1);
      CountNeverDecreases(settings, options, client, chunks, i, j - 1);
    }
  }

  /** So the progress reports never decrease either. */
  lemma ReportsNeverDecrease(settings: IndexSettings, options: map<string, Json>,
                             client: map<string, Json> -> BulkResponse, chunks: seq<seq<EsModel>>, i: nat, j: nat)
    requires i <= j < |chunks|
    ensures |Reports(settings, options, client, chunks)| == |chunks|
    ensures Reports(settings, options, client, chunks)[i] <= Reports(settings, options, client, chunks)[j]
  {
    ReportsAreRunningCounts(settings, options, client, chunks);
    CountNeverDecreases(settings, options, client, chunks, i + 1, j + 1);
  }

  // ---------------------------------------------------------------- chunking

  /** The models of the indexing query whose key is strictly greater than `fromId`. */
  function AfterId(models: seq<EsModel>, fromId: int): (r: seq<EsModel>)
    ensures forall m :: m in r <==> m in models && m.key > fromId
  {
    if models == [] then []
    else
      var last := models[|models| - 1];
      AfterId(models[..|models| - 1], fromId) + (if last.key > fromId then [last] else [])
  }

  /** `chunkById`: consecutive non-empty batches of at most `batchSize` models; none for size 0. */
  function Chunks(models: seq<EsModel>, batchSize: nat): seq<seq<EsModel>>
    decreases |models|
  {
    if models == [] || batchSize == 0 then []
    else if |models| <= batchSize then [models]
    else [models[..batchSize]] + Chunks(models[batchSize..], batchSize)
  }

  function Flatten(chunks: seq<seq<EsModel>>): seq<EsModel> {
    if chunks == [] then [] else chunks[0] + Flatten(chunks[1..])
  }

  /** Chunking loses, repeats and reorders nothing, and no batch is empty or over-full. */
  lemma {:induction false} ChunksPartition(models: seq<EsModel>, batchSize: nat)
    requires batchSize > 0
    ensures Flatten(Chunks(models, batchSize)) == models
    ensures forall c :: c in Chunks(models, batchSize) ==> 0 < |c| <= batchSize
    decreases |models|
  {
    if |models| > batchSize {
      ChunksPartition(models[batchSize..], batchSize);
      var cs := Chunks(models, batchSize);
      assert cs[1..] == Chunks(models[batchSize..], batchSize);
      assert models == models[..batchSize] + models[batchSize..];
    } else if models != [] {
      var cs := Chunks(models, batchSize);
      assert cs[1..] == [];
      assert models + [] == models;
    }
  }

  lemma {:induction false} FlattenMembers(chunks: seq<seq<EsModel>>, c: seq<EsModel>, m: EsModel)
    requires c in chunks && m in c
    ensures m in Flatten(chunks)
  {
    if chunks[0] != c {
      FlattenMembers(chunks[1..], c, m);
    }
  }

  /** Every model the reindex visits has a key strictly greater than `fromId`. */
  lemma OnlyAfterId(source: seq<EsModel>, batchSize: nat, fromId: int, c: seq<EsModel>, m: EsModel)
    requires batchSize > 0
    requires c in Chunks(AfterId(source, fromId), batchSize) && m in c
    ensures m in source && m.key > fromId
  {
    ChunksPartition(AfterId(source, fromId), batchSize);
    FlattenMembers(Chunks(AfterId(source, fromId), batchSize), c, m);
  }

  // ---------------------------------------------------------------- reindexing

  /**
   * The chunk callback of `esReindexAll`: build the actions and, when there are any, send one
   * bulk request and add its item count to `count`.
   */
  method IndexChunk(settings: IndexSettings, options: map<string, Json>,
                    client: map<string, Json> -> BulkResponse, models: seq<EsModel>, count: nat)
    returns (newCount: nat, request: Option<map<string, Json>>)
    ensures request == ChunkRequest(settings, options, models)
    ensures newCount == count + ChunkItems(settings, options, client, models)
  {
    var actions := BuildActions(models);
    newCount, request := count, None;
    if actions != [] {
      request := Some(BulkRequest(settings, options, actions));
      var result := client(request.value);
      newCount := count + |result.items|;
    }
  }

  /** A model with the trait's defaults is always indexed, under its key and without routing. */
  lemma DefaultModelActions(key: int, document: Json)
    ensures ModelActions(WithDefaults(key, document)) ==
      [JObj(map["index" := JObj(map["_id" := JNum(key), "routing" := JNull])]), document]
  {
  }

  /** Models that all keep the default `esShouldIndex` yield an index entry and their document each. */
  lemma {:induction false} DefaultsOnlyIndex(models: seq<EsModel>)
    requires forall i :: 0 <= i < |models| ==> models[i].shouldIndex
    ensures |Actions(models)| == 2 * |models|
    ensures forall i :: 0 <= i < |models| ==>
      Actions(models)[2 * i] == JObj(map["index" := JObj(Metadata(models[i]))])
      && Actions(models)[2 * i + 1] == models[i].document
  {
    if models != [] {
      var n := |models| - 1;
      var init := models[..n];
      assert forall i :: 0 <= i < |init| ==> init[i] == models[i];
      DefaultsOnlyIndex(init);
      var acts := Actions(models);
      assert acts == Actions(init) + [JObj(map["index" := JObj(Metadata(models[n]))]), models[n].document];
      forall i | 0 <= i < |models|
        ensures acts[2 * i] == JObj(map["index" := JObj(Metadata(models[i]))])
        ensures acts[2 * i + 1] == models[i].document
      {
        if i < n {
          assert acts[2 * i] == Actions(init)[2 * i];
          assert acts[2 * i + 1] == Actions(init)[2 * i + 1];
        }
      }
    }
  }

  /** The indexing query's rows in strictly increasing key order, as `chunkById` reads them. */
  predicate KeyOrdered(models: seq<EsModel>) {
    forall i, j :: 0 <= i < j < |models| ==> models[i].key < models[j].key
  }

  lemma {:induction false} AfterIdOrdered(models: seq<EsModel>, fromId: int)
    requires KeyOrdered(models)
    ensures KeyOrdered(AfterId(models, fromId))
  {
    if models != [] {
      var n := |models| - 1;
      var init := models[..n];
      AfterIdOrdered(init, fromId);
      var r := AfterId(init, fromId);
      forall m | m in r
        ensures m.key < models[n].key
      {
        var k :| 0 <= k < |init| && init[k] == m;
        assert models[k] == m;
      }
    }
  }

  /** The batches visit the models above `fromId` in increasing key order. */
  lemma BatchesInKeyOrder(source: seq<EsModel>, batchSize: nat, fromId: int)
    requires batchSize > 0 && KeyOrdered(source)
    ensures KeyOrdered(Flatten(Chunks(AfterId(source, fromId), batchSize)))
  {
    AfterIdOrdered(source, fromId);
    ChunksPartition(AfterId(source, fromId), batchSize);
  }

  /**
   * `esReindexAll`: walk the models with key above `fromId` in batches, indexing or deleting
   * each; returns the final count, the bulk requests made and the progress reports.
   */
  method ReindexAll(settings: IndexSettings, source: seq<EsModel>, batchSize: nat, fromId: int,
                    options: map<string, Json>, progress: bool, client: map<string, Json> -> BulkResponse)
    returns (count: nat, requests: seq<map<string, Json>>, reports: seq<nat>)
    requires KeyOrdered(source)
    ensures var chunks := Chunks(AfterId(source, fromId), batchSize);
      && count == TotalCount(settings, options, client, chunks)
      && requests == Requests(settings, options, chunks)
      && reports == (if progress then Reports(settings, options, client, chunks) else [])
  {
    var chunks := Chunks(AfterId(source, fromId), batchSize);
    count, requests, reports := 0, [], [];
    var i := 0;
    while i < |chunks|
      invariant 0 <= i <= |chunks|
      invariant count == TotalCount(settings, options, client, chunks[..i])
      invariant requests == Requests(settings, options, chunks[..i])
      invariant reports == if progress then Reports(settings, options, client, chunks[..i]) else []
    {
      PrefixStep(settings, options, client, chunks, i);
      var request;
      count, request := IndexChunk(settings, options, client, chunks[i], count);
      if request.Some? {
        requests := requests + [request.value];
      }
      if progress {
        reports := reports + [count];
      }
      i := i + 1;
    }
    assert chunks[..i] == chunks;
  }

  /** `esIndexIntoNew`'s index name: the given one, else `esIndexName()_<time>`. */
  function NewIndexName(settings: IndexSettings, name: Option<string>, time: int): string {
    name.GetOr(settings.indexName + "_" + IntToString(time))
  }

  /**
   * A given name is used as is. Generated names start with `esIndexName()_`, and names
   * generated at different times differ.
   */
  lemma NewIndexNameDistinct(settings: IndexSettings, name: Option<string>, t1: int, t2: int)
    ensures name.Some? ==> NewIndexName(settings, name, t1) == name.value
    ensures name.None? ==> var p := settings.indexName + "_";
      |NewIndexName(settings, name, t1)| > |p| && NewIndexName(settings, name, t1)[..|p|] == p
    ensures name.None? && NewIndexName(settings, name, t1) == NewIndexName(settings, name, t2) ==> t1 == t2
  {
    if name.None? {
      var p := settings.indexName + "_";
      var s1, s2 := IntToString(t1), IntToString(t2);
      assert NewIndexName(settings, name, t1) == p + s1;
      assert (p + s1)[..|p|] == p;
      if p + s1 == p + s2 {
        assert s1 == (p + s1)[|p|..];
        assert s2 == (p + s2)[|p|..];
        IntToStringInjective(t1, t2);
      }
    }
  }

  /**
   * `esIndexIntoNew`: pick the new index name, reindex everything from id 0 into it, and
   * return the name; every bulk request goes to that index.
   */
  method IndexIntoNew(settings: IndexSettings, source: seq<EsModel>, batchSize: nat, name: Option<string>,
                      progress: bool, client: map<string, Json> -> BulkResponse, time: int)
    returns (newIndex: string, count: nat, requests: seq<map<string, Json>>, reports: seq<nat>)
    requires KeyOrdered(source)
    ensures newIndex == NewIndexName(settings, name, time)
    ensures var chunks := Chunks(AfterId(source, 0), batchSize);
      var options := map["index" := JStr(newIndex)];
      && count == TotalCount(settings, options, client, chunks)
      && requests == Requests(settings, options, chunks)
      && reports == (if progress then Reports(settings, options, client, chunks) else [])
    ensures forall r :: r in requests ==> "index" in r && r["index"] == JStr(newIndex)
  {
    newIndex := NewIndexName(settings, name, time);
    var options := map["index" := JStr(newIndex)];
    count, requests, reports := ReindexAll(settings, source, batchSize, 0, options, progress, client);
    RequestsTarget(settings, options, Chunks(AfterId(source, 0), batchSize));
  }

  // ---------------------------------------------------------------- single documents

  /** PHP `array_merge` of two string-keyed arrays: the later one wins on shared keys. */
  function Merge(defaults: map<string, Json>, options: map<string, Json>): (r: map<string, Json>)
    ensures r.Keys == defaults.Keys + options.Keys
    ensures forall k :: k in options ==> r[k] == options[k]
    ensures forall k :: k in defaults && k !in options ==> r[k] == defaults[k]
  {
    defaults + options
  }

  /** The client call a single-document operation makes, with its parameters. */
  datatype DocumentCall = DeleteCall(params: map<string, Json>) | IndexCall(params: map<string, Json>)

  function DeleteDefaults(settings: IndexSettings, m: EsModel): map<string, Json> {
    map[
      "index" := JStr(settings.indexName),
      "type" := JStr(settings.docType),
      "routing" := m.routing,
      "id" := m.esId,
      "client" := JObj(map["ignore" := JNum(404)])
    ]
  }

  function IndexDefaults(settings: IndexSettings, m: EsModel): map<string, Json> {
    map[
      "index" := JStr(settings.indexName),
      "type" := JStr(settings.docType),
      "routing" := m.routing,
      "id" := m.esId,
      "body" := m.document
    ]
  }

  /** `esDeleteDocument`: a delete whose parameters are the defaults overridden by `options`. */
  function DeleteDocument(settings: IndexSettings, m: EsModel, options: map<string, Json>): (r: DocumentCall)
    ensures r.DeleteCall?
    ensures r.params.Keys == {"index", "type", "routing", "id", "client"} + options.Keys
    ensures forall k :: k in options ==> r.params[k] == options[k]
    ensures forall k :: k in DeleteDefaults(settings, m) && k !in options ==> r.params[k] == DeleteDefaults(settings, m)[k]
  {
    DeleteCall(Merge(DeleteDefaults(settings, m), options))
  }

  /**
   * `esIndexDocument`: a model that should not be indexed is deleted with the same options;
   * otherwise an index call whose parameters are the defaults overridden by `options`.
   */
  function IndexDocument(settings: IndexSettings, m: EsModel, options: map<string, Json>): (r: DocumentCall)
    ensures !m.shouldIndex ==> r == DeleteDocument(settings, m, options)
    ensures m.shouldIndex ==> r.IndexCall?
    ensures m.shouldIndex ==> r.params.Keys == {"index", "type", "routing", "id", "body"} + options.Keys
    ensures m.shouldIndex ==> forall k :: k in options ==> r.params[k] == options[k]
    ensures m.shouldIndex ==>
      forall k :: k in IndexDefaults(settings, m) && k !in options ==> r.params[k] == IndexDefaults(settings, m)[k]
  {
    if !m.shouldIndex then DeleteDocument(settings, m, options)
    else IndexCall(Merge(IndexDefaults(settings, m), options))
  }
}
