// QdrantManager: the generic wrapper over the vector store used by the
// retrieval pipeline (training data in `personal_data`, logged questions in
// `user_queries`) and by the chat histories.

module Qdrant {
  import opened Values
  import opened Results
  import opened Ids
  import opened VectorStore
  import opened Provisioning
  import opened Ownership

  const DefaultVectorSize: nat := 768
  const DefaultSearchLimit: nat := 3
  const UserQueries: string := "user_queries"

  /** `{id: point.id, query: point.payload.query, timestamp: point.payload.timestamp}` */
  function QueryEntry(r: Record): (e: Payload)
    ensures e.Keys == {"id", "query", "timestamp"}
    ensures e["id"] == r.id && e["query"] == Get(r.payload, "query") && e["timestamp"] == Get(r.payload, "timestamp")
  {
    map["id" := r.id, "query" := Get(r.payload, "query"), "timestamp" := Get(r.payload, "timestamp")]
  }

  function QueryEntries(recs: seq<Record>): (es: seq<Payload>)
    ensures |es| == |recs|
    ensures forall i :: 0 <= i < |recs| ==> es[i] == QueryEntry(recs[i])
  {
    seq(|recs|, i requires 0 <= i < |recs| => QueryEntry(recs[i]))
  }

  /** What `getUserQueries` may return: one unfiltered page, projected. */
  ghost predicate QueryListing(es: seq<Payload>, pts: map<Value, Point>)
  {
    exists page :: Page(page, pts, None, PageLimit) && es == QueryEntries(page)
  }

  /** A listed question carries exactly the three keys, and at most a page of them is returned. */
  lemma QueryListingShape(es: seq<Payload>, pts: map<Value, Point>)
    requires QueryListing(es, pts)
    ensures |es| <= PageLimit
    ensures forall i :: 0 <= i < |es| ==> es[i].Keys == {"id", "query", "timestamp"} && es[i]["id"] in pts
  {
    var page: seq<Record> :| Page(page, pts, None, PageLimit) && es == QueryEntries(page);
    forall i | 0 <= i < |es|
      ensures es[i].Keys == {"id", "query", "timestamp"} && es[i]["id"] in pts
    {
      assert es[i] == QueryEntry(page[i]);
    }
  }

  class QdrantManager {
    const store: Store
    const collectionName: string
    const userQueriesCollectionName: string

    /** `collectionName` is `process.env.COLLECTION_NAME || "personal_data"`. */
    constructor (store: Store, collectionName: string)
      ensures this.store == store && this.collectionName == collectionName
      ensures userQueriesCollectionName == UserQueries
    {
      this.store := store;
      this.collectionName := collectionName;
      this.userQueriesCollectionName := UserQueries;
    }

    /** The collections after a normally answering `ensureCollection(name)`. */
    ghost function Ready(cols: Collections, name: string): Collections
    {
      Lenient(cols, name, DefaultVectorSize, NoFaults()).cols
    }

    /** `ensureCollection(collectionName, vectorSize = 768)` */
    method EnsureCollection(name: string, vectorSize: nat, f: Faults) returns (r: Outcome)
      modifies store
      ensures Step(store.collections, r) == Lenient(old(store.collections), name, vectorSize, f)
    {
      var probe := store.GetCollection(name, f.getCollection);
      if probe.Pass? {
        return Pass;
      }
      r := store.CreateCollection(name, vectorSize, f.createCollection);
    }

    /** `storeEmbedding(id, payload, embedding)`; `now` is the ISO time of the call. */
    method StoreEmbedding(id: Value, payload: Payload, embedding: Vector, now: string) returns (r: Result<Payload>)
      modifies store
      ensures var cols := Ready(old(store.collections), collectionName);
        && r == Ok(Stored(id))
        && collectionName in cols
        && store.collections == WithPoints(cols, collectionName,
             cols[collectionName].points[id := Point(embedding, Merge(payload, map["timestamp" := Str(now)]))])
    {
      LenientProvisions(store.collections, collectionName, DefaultVectorSize);
      var ready := EnsureCollection(collectionName, DefaultVectorSize, NoFaults());
      var written := store.Upsert(collectionName, id, embedding, Merge(payload, map["timestamp" := Str(now)]));
      r := Ok(Stored(id));
    }

    /** `storeUserQuery(query, queryEmbedding)` under a fresh id. */
    method StoreUserQuery(query: Value, queryEmbedding: Vector, draw: Draw, now: string) returns (r: Result<Payload>)
      modifies store
      ensures var cols := Ready(old(store.collections), userQueriesCollectionName);
        var id := Int(IdOf(draw));
        && r == Ok(Stored(id))
        && userQueriesCollectionName in cols
        && store.collections == WithPoints(cols, userQueriesCollectionName,
             cols[userQueriesCollectionName].points[id := Point(queryEmbedding, map["query" := query, "timestamp" := Str(now)])])
    {
      LenientProvisions(store.collections, userQueriesCollectionName, DefaultVectorSize);
      var ready := EnsureCollection(userQueriesCollectionName, DefaultVectorSize, NoFaults());
      var id := Int(GenerateId(draw.timestamp, draw.random));
      var written := store.Upsert(userQueriesCollectionName, id, queryEmbedding, map["query" := query, "timestamp" := Str(now)]);
      r := Ok(Stored(id));
    }

    /** `searchSimilar(queryEmbedding, limit = 3)`: hits projected to `{id, score, payload}`. */
    method SearchSimilar(queryEmbedding: Vector, limit: nat) returns (r: Result<seq<Hit>>)
      modifies store
      ensures store.collections == Ready(old(store.collections), collectionName)
      ensures r.Ok? && Hits(r.value, PointsOf(store.collections, collectionName), limit)
    {
      LenientProvisions(store.collections, collectionName, DefaultVectorSize);
      var ready := EnsureCollection(collectionName, DefaultVectorSize, NoFaults());
      r := store.Search(collectionName, queryEmbedding, limit);
    }

    /** `getUserQueries()`: at most 100 logged questions, each exactly `{id, query, timestamp}`. */
    method GetUserQueries() returns (r: Result<seq<Payload>>)
      modifies store
      ensures store.collections == Ready(old(store.collections), userQueriesCollectionName)
      ensures r.Ok? && QueryListing(r.value, PointsOf(store.collections, userQueriesCollectionName))
    {
      LenientProvisions(store.collections, userQueriesCollectionName, DefaultVectorSize);
      var ready := EnsureCollection(userQueriesCollectionName, DefaultVectorSize, NoFaults());
      var page := store.Scroll(userQueriesCollectionName, None, PageLimit, None);
      r := Ok(QueryEntries(page.value));
    }

    /** `getAllTrainData()`: an unfiltered page of `{id, ...payload}` entries. */
    method GetAllTrainData() returns (r: Result<seq<Payload>>)
      modifies store
      ensures store.collections == Ready(old(store.collections), collectionName)
      ensures r.Ok? && Listing(r.value, PointsOf(store.collections, collectionName), None, PageLimit)
    {
      LenientProvisions(store.collections, collectionName, DefaultVectorSize);
      var ready := EnsureCollection(collectionName, DefaultVectorSize, NoFaults());
      var page := store.Scroll(collectionName, None, PageLimit, None);
      r := Ok(Entries(page.value));
    }

    /** `deleteTrainData(id)`: no existence check; succeeds for any id. */
    method DeleteTrainData(id: Value) returns (r: Result<Payload>)
      modifies store
      ensures var cols := Ready(old(store.collections), collectionName);
        && r == Ok(Stored(id))
        && collectionName in cols
        && store.collections == WithPoints(cols, collectionName, cols[collectionName].points - {id})
    {
      LenientProvisions(store.collections, collectionName, DefaultVectorSize);
      var ready := EnsureCollection(collectionName, DefaultVectorSize, NoFaults());
      var deleted := store.Delete(collectionName, id);
      r := Ok(Stored(id));
    }

    /** `getPoint(id)`: the first retrieved point, or undefined. */
    method GetPoint(id: Value) returns (r: Result<Option<Record>>)
      modifies store
      ensures store.collections == Ready(old(store.collections), collectionName)
      ensures var pts := PointsOf(store.collections, collectionName);
        && r.Ok?
        && (r.value.Some? <==> id in pts)
        && (id in pts ==> r.value.value == AsRecord(id, pts[id]))
    {
      LenientProvisions(store.collections, collectionName, DefaultVectorSize);
      var ready := EnsureCollection(collectionName, DefaultVectorSize, NoFaults());
      var found := store.Retrieve(collectionName, id);
      if |found.value| == 0 {
        r := Ok(None);
      } else {
        r := Ok(Some(found.value[0]));
      }
    }
  }
}
