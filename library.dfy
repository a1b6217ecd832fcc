// LibraryService: library entries embedded by their `title`, with owner checks.

module Library {
  import opened Values
  import opened Results
  import opened Ids
  import opened VectorStore
  import opened Provisioning
  import opened Ownership

  class LibraryService {
    const store: Store
    const name: string

    /** `name` is `process.env.LIBRARY_COLLECTION_NAME || 'library'`. */
    constructor (store: Store, name: string)
      ensures this.store == store && this.name == name
    {
      this.store := store;
      this.name := name;
    }

    ghost function Ready(cols: Collections): Collections
    {
      Indexed(cols, name, NoFaults()).cols
    }

    method EnsureCollection(f: Faults) returns (r: Outcome)
      modifies store
      ensures Step(store.collections, r) == Indexed(old(store.collections), name, f)
      ensures f == NoFaults() ==> (r == Pass && Provisioned(old(store.collections), store.collections, name)
        && Ready(store.collections) == store.collections)
    {
      IndexedProvisions(store.collections, name);
      IndexedIdempotent(store.collections, name);
      var probe := store.GetCollection(name, f.getCollection);
      if probe.Fail? {
        if IsNotFoundStatus(probe.error) {
          r := store.CreateCollection(name, EmbeddingSize, f.createCollection);
          if r.Fail? {
            return;
          }
        } else {
          return probe;
        }
      }
      var indexed := store.CreatePayloadIndex(name, "userId", "integer", f.firstIndex);
      r := Pass;
    }

    /** `addLibrary(libraryData, userId)`: embeds `title`; the caller is stamped as owner. */
    method AddLibrary(libraryData: Payload, userId: Value, draw: Draw) returns (r: Result<Payload>)
      modifies store
      ensures var cols := Ready(old(store.collections));
        var id := Or(Get(libraryData, "id"), Int(IdOf(draw)));
        && name in cols
        && r == Ok(Stored(id))
        && store.collections == WithPoints(cols, name,
             cols[name].points[id := Point(Embed(Get(libraryData, "title")), Stamped(libraryData, userId))])
    {
      var ready := EnsureCollection(NoFaults());
      var embedding := Embed(Get(libraryData, "title"));
      var id := Or(Get(libraryData, "id"), Int(GenerateId(draw.timestamp, draw.random)));
      var written := store.Upsert(name, id, embedding, Stamped(libraryData, userId));
      r := Ok(Stored(id));
    }

    /** `getLibraries(userId, role)` */
    method GetLibraries(userId: Value, role: Value) returns (r: Result<seq<Payload>>)
      modifies store
      ensures store.collections == Ready(old(store.collections))
      ensures r.Ok? && Listing(r.value, PointsOf(store.collections, name), OwnerFilter(Privileged(role), userId), PageLimit)
    {
      var ready := EnsureCollection(NoFaults());
      var page := store.Scroll(name, OwnerFilter(Privileged(role), userId), PageLimit, None);
      r := Ok(Entries(page.value));
    }

    /** `getLibraryById(id)` */
    method GetLibraryById(id: Value) returns (r: Result<Payload>)
      modifies store
      ensures store.collections == Ready(old(store.collections))
      ensures var pid := NormalizeId(id);
        var pts := PointsOf(store.collections, name);
        && (pid in pts ==> r == Ok(Entry(pid, pts[pid].payload)))
        && (pid !in pts ==> r == Err(NotFound("Library with id " + JsString(pid) + " not found.")))
    {
      var ready := EnsureCollection(NoFaults());
      var pid := NormalizeId(id);
      var found := store.Retrieve(name, pid);
      if |found.value| == 0 {
        return Err(NotFound("Library with id " + JsString(pid) + " not found."));
      }
      r := Ok(Entry(found.value[0].id, found.value[0].payload));
    }

    /** `updateLibrary(id, libraryData, userId, role)`: re-embeds `title`; the data may
        overwrite `userId` (see `Ownership.MergeCanReassignOwner`). */
    method UpdateLibrary(id: Value, libraryData: Payload, userId: Value, role: Value) returns (r: Result<Payload>)
      modifies store
      ensures var cols := Ready(old(store.collections));
        var pid := NormalizeId(id);
        var pts := PointsOf(cols, name);
        && name in cols
        && match Check(pts, pid, Privileged(role), Loose, userId)
           case Missing =>
             r == Err(NotFound("Point with id " + JsString(id) + " not found")) && store.collections == cols
           case Denied =>
             r == Err(Forbidden("Forbidden: You do not own this record")) && store.collections == cols
           case Granted =>
             && r == Ok(Stored(pid))
             && store.collections == WithPoints(cols, name,
                  pts[pid := Point(Embed(Get(libraryData, "title")), Merge(pts[pid].payload, libraryData))])
    {
      var ready := EnsureCollection(NoFaults());
      var pid := NormalizeId(id);
      var existing := store.Retrieve(name, pid);
      if |existing.value| == 0 {
        return Err(NotFound("Point with id " + JsString(id) + " not found"));
      }
      var payload := existing.value[0].payload;
      if !Privileged(role) && JsString(Get(payload, "userId")) != JsString(userId) {
        return Err(Forbidden("Forbidden: You do not own this record"));
      }
      var embedding := Embed(Get(libraryData, "title"));
      var written := store.Upsert(name, pid, embedding, Merge(payload, libraryData));
      r := Ok(Stored(pid));
    }

    /** `deleteLibrary(id, userId, role)`: the owner check is strict. */
    method DeleteLibrary(id: Value, userId: Value, role: Value) returns (r: Result<Payload>)
      modifies store
      ensures var cols := Ready(old(store.collections));
        var pid := NormalizeId(id);
        var pts := PointsOf(cols, name);
        && name in cols
        && match Check(pts, pid, Privileged(role), Strict, userId)
           case Missing =>
             r == Err(NotFound("Point with id " + JsString(pid) + " not found.")) && store.collections == cols
           case Denied =>
             r == Err(Forbidden("Forbidden")) && store.collections == cols
           case Granted =>
             r == Ok(Done()) && store.collections == WithPoints(cols, name, pts - {pid})
    {
      var ready := EnsureCollection(NoFaults());
      var pid := NormalizeId(id);
      var existing := store.Retrieve(name, pid);
      if |existing.value| == 0 {
        return Err(NotFound("Point with id " + JsString(pid) + " not found."));
      }
      if !Privileged(role) && !StrictEquals(Get(existing.value[0].payload, "userId"), userId) {
        return Err(Forbidden("Forbidden"));
      }
      var deleted := store.Delete(name, pid);
      r := Ok(Done());
    }
  }
}
