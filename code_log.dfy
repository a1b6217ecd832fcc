// CodeLogService: code snippets embedded by their `code`, with owner checks; an
// update keeps the stored owner.

module CodeLogs {
  import opened Values
  import opened Results
  import opened Ids
  import opened VectorStore
  import opened Provisioning
  import opened Ownership

  /** `{...existingPayload, ...codeLogData, userId: existingPayload.userId || userId}` */
  function CodeLogUpdate(existing: Payload, data: Payload, userId: Value): (p: Payload)
    ensures p.Keys == existing.Keys + data.Keys + {"userId"}
    ensures Truthy(Get(existing, "userId")) ==> p["userId"] == existing["userId"]
    ensures !Truthy(Get(existing, "userId")) ==> p["userId"] == userId
    ensures forall k :: k in data && k != "userId" ==> p[k] == data[k]
    ensures forall k :: k in existing && k !in data && k != "userId" ==> p[k] == existing[k]
  {
    Merge(Merge(existing, data), map["userId" := Or(Get(existing, "userId"), userId)])
  }

  /** Whatever the data carries, an update never takes a code log away from a (truthy)
      owner: every later access check answers as before. An ownerless record passes to
      the updating caller. */
  lemma CodeLogUpdateKeepsOwner(pts: map<Value, Point>, pid: Value, data: Payload, userId: Value, v: Vector)
    requires pid in pts
    ensures var after := pts[pid := Point(v, CodeLogUpdate(pts[pid].payload, data, userId))];
      && (Truthy(Get(pts[pid].payload, "userId")) ==>
            forall privileged, cmp, u :: Check(after, pid, privileged, cmp, u) == Check(pts, pid, privileged, cmp, u))
      && (!Truthy(Get(pts[pid].payload, "userId")) ==> Check(after, pid, false, Loose, userId) == Granted)
  {
  }

  class CodeLogService {
    const store: Store
    const name: string

    /** `name` is `process.env.CODE_LOG_COLLECTION_NAME || "code_logs"`. */
    constructor (store: Store, name: string)
      ensures this.store == store && this.name == name
    {
      this.store := store;
      this.name := name;
    }

    ghost function Ready(cols: Collections): Collections
    {
      Indexed(cols, name, NoFaults()).cols
    }

    method EnsureCollection(f: Faults) returns (r: Outcome)
      modifies store
      ensures Step(store.collections, r) == Indexed(old(store.collections), name, f)
      ensures f == NoFaults() ==> (r == Pass && Provisioned(old(store.collections), store.collections, name)
        && Ready(store.collections) == store.collections)
    {
      IndexedProvisions(store.collections, name);
      IndexedIdempotent(store.collections, name);
      var probe := store.GetCollection(name, f.getCollection);
      if probe.Fail? {
        if IsNotFoundStatus(probe.error) {
          r := store.CreateCollection(name, EmbeddingSize, f.createCollection);
          if r.Fail? {
            return;
          }
        } else {
          return probe;
        }
      }
      var indexed := store.CreatePayloadIndex(name, "userId", "integer", f.firstIndex);
      r := Pass;
    }

    /** `addCodeLog(codeLogData, userId)`: embeds `code`; the caller is stamped as owner. */
    method AddCodeLog(codeLogData: Payload, userId: Value, draw: Draw) returns (r: Result<Payload>)
      modifies store
      ensures var cols := Ready(old(store.collections));
        var id := Or(Get(codeLogData, "id"), Int(IdOf(draw)));
        && name in cols
        && r == Ok(Stored(id))
        && store.collections == WithPoints(cols, name,
             cols[name].points[id := Point(Embed(Get(codeLogData, "code")), Stamped(codeLogData, userId))])
    {
      var ready := EnsureCollection(NoFaults());
      var embedding := Embed(Get(codeLogData, "code"));
      var id := Or(Get(codeLogData, "id"), Int(GenerateId(draw.timestamp, draw.random)));
      var written := store.Upsert(name, id, embedding, Stamped(codeLogData, userId));
      r := Ok(Stored(id));
    }

    /** `getCodeLogs(userId, role)`: a failed scroll is rethrown as it is. */
    method GetCodeLogs(userId: Value, role: Value, fault: Option<Error>) returns (r: Result<seq<Payload>>)
      modifies store
      ensures store.collections == Ready(old(store.collections))
      ensures fault.Some? ==> r == Err(fault.value)
      ensures fault.None? ==>
        r.Ok? && Listing(r.value, PointsOf(store.collections, name), OwnerFilter(Privileged(role), userId), PageLimit)
    {
      var ready := EnsureCollection(NoFaults());
      var page := store.Scroll(name, OwnerFilter(Privileged(role), userId), PageLimit, fault);
      if page.Err? {
        return Err(page.error);
      }
      r := Ok(Entries(page.value));
    }

    /** `getCodeLogById(id)` */
    method GetCodeLogById(id: Value) returns (r: Result<Payload>)
      modifies store
      ensures store.collections == Ready(old(store.collections))
      ensures var pid := NormalizeId(id);
        var pts := PointsOf(store.collections, name);
        && (pid in pts ==> r == Ok(Entry(pid, pts[pid].payload)))
        && (pid !in pts ==> r == Err(NotFound("CodeLog with id " + JsString(pid) + " not found.")))
    {
      var ready := EnsureCollection(NoFaults());
      var pid := NormalizeId(id);
      var found := store.Retrieve(name, pid);
      if |found.value| == 0 {
        return Err(NotFound("CodeLog with id " + JsString(pid) + " not found."));
      }
      r := Ok(Entry(found.value[0].id, found.value[0].payload));
    }

    /** `updateCodeLog(id, codeLogData, userId, role)`: re-embeds `code`; the stored owner is pinned. */
    method UpdateCodeLog(id: Value, codeLogData: Payload, userId: Value, role: Value) returns (r: Result<Payload>)
      modifies store
      ensures var cols := Ready(old(store.collections));
        var pid := NormalizeId(id);
        var pts := PointsOf(cols, name);
        && name in cols
        && match Check(pts, pid, Privileged(role), Loose, userId)
           case Missing =>
             r == Err(NotFound("Point with id " + JsString(id) + " not found")) && store.collections == cols
           case Denied =>
             r == Err(Forbidden("Forbidden: You do not own this record")) && store.collections == cols
           case Granted =>
             && r == Ok(Stored(pid))
             && store.collections == WithPoints(cols, name,
                  pts[pid := Point(Embed(Get(codeLogData, "code")), CodeLogUpdate(pts[pid].payload, codeLogData, userId))])
    {
      var ready := EnsureCollection(NoFaults());
      var pid := NormalizeId(id);
      var existing := store.Retrieve(name, pid);
      if |existing.value| == 0 {
        return Err(NotFound("Point with id " + JsString(id) + " not found"));
      }
      var payload := existing.value[0].payload;
      if !Privileged(role) && JsString(Get(payload, "userId")) != JsString(userId) {
        return Err(Forbidden("Forbidden: You do not own this record"));
      }
      var embedding := Embed(Get(codeLogData, "code"));
      var written := store.Upsert(name, pid, embedding, CodeLogUpdate(payload, codeLogData, userId));
      r := Ok(Stored(pid));
    }

    /** `deleteCodeLog(id, userId, role)`: the owner check is strict. */
    method DeleteCodeLog(id: Value, userId: Value, role: Value) returns (r: Result<Payload>)
      modifies store
      ensures var cols := Ready(old(store.collections));
        var pid := NormalizeId(id);
        var pts := PointsOf(cols, name);
        && name in cols
        && match Check(pts, pid, Privileged(role), Strict, userId)
           case Missing =>
             r == Err(NotFound("Point with id " + JsString(pid) + " not found.")) && store.collections == cols
           case Denied =>
             r == Err(Forbidden("Forbidden")) && store.collections == cols
           case Granted =>
             r == Ok(Done()) && store.collections == WithPoints(cols, name, pts - {pid})
    {
      var ready := EnsureCollection(NoFaults());
      var pid := NormalizeId(id);
      var existing := store.Retrieve(name, pid);
      if |existing.value| == 0 {
        return Err(NotFound("Point with id " + JsString(pid) + " not found."));
      }
      if !Privileged(role) && !StrictEquals(Get(existing.value[0].payload, "userId"), userId) {
        return Err(Forbidden("Forbidden"));
      }
      var deleted := store.Delete(name, pid);
      r := Ok(Done());
    }
  }
}
