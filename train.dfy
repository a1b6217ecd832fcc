// TrainService: the training texts behind the chatbot's answers, in the
// `personal_data` collection the retrieval pipeline searches. Each entry is
// embedded by its `content`; updates keep the owner and re-embed only changed
// content.

module Train {
  import opened Values
  import opened Results
  import opened Ids
  import opened VectorStore
  import opened Provisioning
  import opened Ownership

  /** The fields `addTrainData` and `updateTrainData` take from the request. */
  const TrainFields: set<string> := {"category", "title", "content", "tags"}

  /** `{category, title, content, tags, timestamp, userId}`: nothing else from the request is kept. */
  function NewTrainPayload(data: Payload, now: string, userId: Value): (p: Payload)
    ensures p.Keys == TrainFields + {"timestamp", "userId"}
    ensures forall k :: k in TrainFields ==> p[k] == Get(data, k)
    ensures p["timestamp"] == Str(now) && p["userId"] == userId
  {
    map["category" := Get(data, "category"), "title" := Get(data, "title"), "content" := Get(data, "content"),
        "tags" := Get(data, "tags"), "timestamp" := Str(now), "userId" := userId]
  }

  /** `{...existing, category: category ?? existing.category, ...}` for the four fields. */
  function TrainUpdate(existing: Payload, data: Payload): (p: Payload)
    ensures p.Keys == existing.Keys + TrainFields
    ensures forall k :: k in TrainFields ==> p[k] == Coalesce(Get(data, k), Get(existing, k))
    ensures forall k :: k in existing && k !in TrainFields ==> p[k] == existing[k]
  {
    Merge(existing, map k | k in TrainFields :: Coalesce(Get(data, k), Get(existing, k)))
  }

  /** An update keeps the stored owner, whatever the request carries, so every later
      access check answers as before. */
  lemma TrainUpdateKeepsOwner(pts: map<Value, Point>, pid: Value, data: Payload, v: Vector)
    requires pid in pts
    ensures var after := pts[pid := Point(v, TrainUpdate(pts[pid].payload, data))];
      forall privileged, cmp, u :: Check(after, pid, privileged, cmp, u) == Check(pts, pid, privileged, cmp, u)
  {
    var p := TrainUpdate(pts[pid].payload, data);
    assert Get(p, "userId") == Get(pts[pid].payload, "userId");
  }

  /** Sending the same update twice stores the same payload as sending it once. */
  lemma TrainUpdateIdempotent(existing: Payload, data: Payload)
    ensures TrainUpdate(TrainUpdate(existing, data), data) == TrainUpdate(existing, data)
  {
    var once := TrainUpdate(existing, data);
    var twice := TrainUpdate(once, data);
    forall k | k in twice
      ensures twice[k] == once[k]
    {
      if k in TrainFields {
        assert Get(once, k) == Coalesce(Get(data, k), Get(existing, k));
      }
    }
  }

  /** A request without any of the four fields leaves the stored payload as it was,
      up to the four keys being present. */
  lemma EmptyTrainUpdateKeepsValues(existing: Payload, data: Payload)
    requires forall k :: k in TrainFields ==> k !in data
    ensures forall k :: k in existing ==> TrainUpdate(existing, data)[k] == existing[k]
  {
  }

  /** The vector an update stores: re-embedded for truthy content that differs from the
      stored content, the stored vector otherwise. */
  function UpdatedVector(stored: Point, content: Value): Vector
  {
    if Truthy(content) && !StrictEquals(content, Get(stored.payload, "content")) then Embed(content)
    else stored.vector
  }

  /** Resending the stored content (or none) never calls the embedding model. */
  lemma UnchangedContentKeepsVector(stored: Point, content: Value)
    requires !Truthy(content) || content == Get(stored.payload, "content")
    requires !content.Arr? && !content.Obj?
    ensures UpdatedVector(stored, content) == stored.vector
  {
  }

  class TrainService {
    const store: Store
    const name: string

    /** `name` is `process.env.COLLECTION_NAME || 'personal_data'`. */
    constructor (store: Store, name: string)
      ensures this.store == store && this.name == name
    {
      this.store := store;
      this.name := name;
    }

    ghost function Ready(cols: Collections): Collections
    {
      TrainIndexed(cols, name, NoFaults()).cols
    }

    /** A probe failure other than 404 is logged nowhere and swallowed. */
    method EnsureCollection(f: Faults) returns (r: Outcome)
      modifies store
      ensures Step(store.collections, r) == TrainIndexed(old(store.collections), name, f)
      ensures f == NoFaults() ==> (r == Pass && Provisioned(old(store.collections), store.collections, name)
        && Ready(store.collections) == store.collections)
    {
      TrainIndexedProvisions(store.collections, name);
      TrainIndexedIdempotent(store.collections, name);
      var probe := store.GetCollection(name, f.getCollection);
      if probe.Fail? && IsNotFoundStatus(probe.error) {
        r := store.CreateCollection(name, EmbeddingSize, f.createCollection);
        if r.Fail? {
          return;
        }
      }
      var indexed := store.CreatePayloadIndex(name, "userId", "integer", f.firstIndex);
      r := Pass;
    }

    /** `addTrainData(data, userId)`: validates `content`, embeds it and upserts without
        ensuring the collection first, so a missing collection fails the upsert.
        `now` is the ISO time of the call. */
    method AddTrainData(data: Payload, userId: Value, draw: Draw, now: string) returns (r: Result<Payload>)
      modifies store
      ensures var content := Get(data, "content");
        !NonBlankString(content) ==>
          r == Err(Invalid("Content must be a non-empty string")) && store.collections == old(store.collections)
      ensures var content := Get(data, "content");
        var id := Or(Get(data, "id"), Int(IdOf(draw)));
        var cols := old(store.collections);
        NonBlankString(content) ==>
          if name !in cols then r == Err(CollectionMissing(name)) && store.collections == cols
          else
            && r == Ok(map["id" := id, "contentLength" := Int(|content.s|), "embeddingSize" := Int(EmbeddingSize)])
            && store.collections == WithPoints(cols, name,
                 cols[name].points[id := Point(Embed(content), NewTrainPayload(data, now, userId))])
    {
      var content := Get(data, "content");
      if !NonBlankString(content) {
        return Err(Invalid("Content must be a non-empty string"));
      }
      var embedding := Embed(content);
      var id := Or(Get(data, "id"), Int(GenerateId(draw.timestamp, draw.random)));
      var written := store.Upsert(name, id, embedding, NewTrainPayload(data, now, userId));
      if written.Fail? {
        return Err(written.error);
      }
      r := Ok(map["id" := id, "contentLength" := Int(|content.s|), "embeddingSize" := Int(EmbeddingSize)]);
    }

    /** `getAllTrainData(userId, role)` */
    method GetAllTrainData(userId: Value, role: Value) returns (r: Result<seq<Payload>>)
      modifies store
      ensures store.collections == Ready(old(store.collections))
      ensures r.Ok? && Listing(r.value, PointsOf(store.collections, name), OwnerFilter(Privileged(role), userId), PageLimit)
    {
      var ready := EnsureCollection(NoFaults());
      var page := store.Scroll(name, OwnerFilter(Privileged(role), userId), PageLimit, None);
      r := Ok(Entries(page.value));
    }

    /** `getPoint(id)`: the stored record with its vector, or undefined; the id is used as given. */
    method GetPoint(id: Value) returns (r: Option<Record>)
      modifies store
      ensures store.collections == Ready(old(store.collections))
      ensures var pts := PointsOf(store.collections, name);
        && (r.Some? <==> id in pts)
        && (id in pts ==> r.value == AsRecord(id, pts[id]))
    {
      var ready := EnsureCollection(NoFaults());
      var found := store.Retrieve(name, id);
      if |found.value| == 0 {
        return None;
      }
      r := Some(found.value[0]);
    }

    /** `updateTrainData(id, data, userId, role)`: field-wise `??` over the four fields,
        re-embedding only changed content; answers `{id}`. */
    method UpdateTrainData(id: Value, data: Payload, userId: Value, role: Value) returns (r: Result<Payload>)
      modifies store
      ensures var cols := Ready(old(store.collections));
        var pid := NormalizeId(id);
        var pts := PointsOf(cols, name);
        && name in cols
        && match Check(pts, pid, Privileged(role), Loose, userId)
           case Missing =>
             r == Err(NotFound("Data point not found")) && store.collections == cols
           case Denied =>
             r == Err(Forbidden("Forbidden: You do not own this record")) && store.collections == cols
           case Granted =>
             && r == Ok(map["id" := pid])
             && store.collections == WithPoints(cols, name,
                  pts[pid := Point(UpdatedVector(pts[pid], Get(data, "content")), TrainUpdate(pts[pid].payload, data))])
    {
      TrainIndexedIdempotent(store.collections, name);
      var ready := EnsureCollection(NoFaults());
      ghost var cols := store.collections;
      var pid := NormalizeId(id);
      var existing := GetPoint(pid);
      assert store.collections == cols;
      ghost var pts := PointsOf(cols, name);
      if existing.None? {
        return Err(NotFound("Data point not found"));
      }
      var payload := existing.value.payload;
      assert payload == pts[pid].payload;
      if !Privileged(role) && JsString(Get(payload, "userId")) != JsString(userId) {
        return Err(Forbidden("Forbidden: You do not own this record"));
      }
      assert Check(pts, pid, Privileged(role), Loose, userId) == Granted;
      var content := Get(data, "content");
      var embedding := existing.value.vector;
      if Truthy(content) && !StrictEquals(content, Get(payload, "content")) {
        embedding := Embed(content);
      }
      assert embedding == UpdatedVector(pts[pid], content);
      var written := store.Upsert(name, pid, embedding, TrainUpdate(payload, data));
      r := Ok(map["id" := pid]);
    }

    /** `deleteTrainData(id, userId, role)`: the same loose owner check as the update;
        answers nothing. */
    method DeleteTrainData(id: Value, userId: Value, role: Value) returns (r: Outcome)
      modifies store
      ensures var cols := Ready(old(store.collections));
        var pid := NormalizeId(id);
        var pts := PointsOf(cols, name);
        && name in cols
        && match Check(pts, pid, Privileged(role), Loose, userId)
           case Missing =>
             r == Fail(NotFound("Data point not found")) && store.collections == cols
           case Denied =>
             r == Fail(Forbidden("Forbidden: You do not own this record")) && store.collections == cols
           case Granted =>
             r == Pass && store.collections == WithPoints(cols, name, pts - {pid})
    {
      TrainIndexedIdempotent(store.collections, name);
      var ready := EnsureCollection(NoFaults());
      var pid := NormalizeId(id);
      var existing := GetPoint(pid);
      if existing.None? {
        return Fail(NotFound("Data point not found"));
      }
      if !Privileged(role) && JsString(Get(existing.value.payload, "userId")) != JsString(userId) {
        return Fail(Forbidden("Forbidden: You do not own this record"));
      }
      var deleted := store.Delete(name, pid);
      r := Pass;
    }
  }
}
