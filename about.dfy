// AboutService: "about" entries embedded by their `description`, with owner checks;
// every entry gets a fresh id and the collection carries `userId` and `apiKey` indexes.

module About {
  import opened Values
  import opened Results
  import opened Ids
  import opened VectorStore
  import opened Provisioning
  import opened Ownership

  class AboutService {
    const store: Store
    const name: string

    /** `name` is `process.env.ABOUT_COLLECTION_NAME || "about"`. */
    constructor (store: Store, name: string)
      ensures this.store == store && this.name == name
    {
      this.store := store;
      this.name := name;
    }

    ghost function Ready(cols: Collections): Collections
    {
      AboutIndexed(cols, name, NoFaults()).cols
    }

    method EnsureCollection(f: Faults) returns (r: Outcome)
      modifies store
      ensures Step(store.collections, r) == AboutIndexed(old(store.collections), name, f)
      ensures f == NoFaults() ==> (r == Pass && Provisioned(old(store.collections), store.collections, name)
        && Ready(store.collections) == store.collections)
    {
      AboutIndexedProvisions(store.collections, name);
      AboutIndexedIdempotent(store.collections, name);
      var probe := store.GetCollection(name, f.getCollection);
      if probe.Fail? {
        if IsNotFoundStatus(probe.error) {
          r := store.CreateCollection(name, EmbeddingSize, f.createCollection);
          if r.Fail? {
            return;
          }
        } else {
          return probe;
        }
      }
      var first := store.CreatePayloadIndex(name, "userId", "integer", f.firstIndex);
      if first.Pass? {
        var second := store.CreatePayloadIndex(name, "apiKey", "keyword", f.secondIndex);
      }
      r := Pass;
    }

    /** `addAbout(aboutData, userId)`: always a fresh id, whatever `aboutData.id` says; embeds `description`. */
    method AddAbout(aboutData: Payload, userId: Value, draw: Draw) returns (r: Result<Payload>)
      modifies store
      ensures var cols := Ready(old(store.collections));
        var id := Int(IdOf(draw));
        && name in cols
        && r == Ok(Stored(id))
        && store.collections == WithPoints(cols, name,
             cols[name].points[id := Point(Embed(Get(aboutData, "description")), Stamped(aboutData, userId))])
    {
      var ready := EnsureCollection(NoFaults());
      var embedding := Embed(Get(aboutData, "description"));
      var id := Int(GenerateId(draw.timestamp, draw.random));
      var written := store.Upsert(name, id, embedding, Stamped(aboutData, userId));
      r := Ok(Stored(id));
    }

    /** `getAbout(userId, role)` */
    method GetAbout(userId: Value, role: Value) returns (r: Result<seq<Payload>>)
      modifies store
      ensures store.collections == Ready(old(store.collections))
      ensures r.Ok? && Listing(r.value, PointsOf(store.collections, name), OwnerFilter(Privileged(role), userId), PageLimit)
    {
      var ready := EnsureCollection(NoFaults());
      var page := store.Scroll(name, OwnerFilter(Privileged(role), userId), PageLimit, None);
      r := Ok(Entries(page.value));
    }

    /** `updateAbout(id, aboutData, userId, role)`: re-embeds `description`. */
    method UpdateAbout(id: Value, aboutData: Payload, userId: Value, role: Value) returns (r: Result<Payload>)
      modifies store
      ensures var cols := Ready(old(store.collections));
        var pid := NormalizeId(id);
        var pts := PointsOf(cols, name);
        && name in cols
        && match Check(pts, pid, Privileged(role), Loose, userId)
           case Missing =>
             r == Err(NotFound("Point with id " + JsString(id) + " not found")) && store.collections == cols
           case Denied =>
             r == Err(Forbidden("Forbidden: You do not own this record")) && store.collections == cols
           case Granted =>
             && r == Ok(Stored(pid))
             && store.collections == WithPoints(cols, name,
                  pts[pid := Point(Embed(Get(aboutData, "description")), Merge(pts[pid].payload, aboutData))])
    {
      var ready := EnsureCollection(NoFaults());
      var pid := NormalizeId(id);
      var existing := store.Retrieve(name, pid);
      if |existing.value| == 0 {
        return Err(NotFound("Point with id " + JsString(id) + " not found"));
      }
      var payload := existing.value[0].payload;
      if !Privileged(role) && JsString(Get(payload, "userId")) != JsString(userId) {
        return Err(Forbidden("Forbidden: You do not own this record"));
      }
      var embedding := Embed(Get(aboutData, "description"));
      var written := store.Upsert(name, pid, embedding, Merge(payload, aboutData));
      r := Ok(Stored(pid));
    }

    /** `deleteAbout(id, userId, role)`: strict owner check; the not-found message
        names the id as given. */
    method DeleteAbout(id: Value, userId: Value, role: Value) returns (r: Result<Payload>)
      modifies store
      ensures var cols := Ready(old(store.collections));
        var pid := NormalizeId(id);
        var pts := PointsOf(cols, name);
        && name in cols
        && match Check(pts, pid, Privileged(role), Strict, userId)
           case Missing =>
             r == Err(NotFound("Point with id " + JsString(id) + " not found")) && store.collections == cols
           case Denied =>
             r == Err(Forbidden("Forbidden")) && store.collections == cols
           case Granted =>
             r == Ok(Done()) && store.collections == WithPoints(cols, name, pts - {pid})
    {
      var ready := EnsureCollection(NoFaults());
      var pid := NormalizeId(id);
      var existing := store.Retrieve(name, pid);
      if |existing.value| == 0 {
        return Err(NotFound("Point with id " + JsString(id) + " not found"));
      }
      if !Privileged(role) && !StrictEquals(Get(existing.value[0].payload, "userId"), userId) {
        return Err(Forbidden("Forbidden"));
      }
      var deleted := store.Delete(name, pid);
      r := Ok(Done());
    }
  }
}
