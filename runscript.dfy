// RunScriptService: stored scripts embedded by their `script_name`; no owner, no
// owner checks, and an update that writes without looking first.

module RunScripts {
  import opened Values
  import opened Results
  import opened Ids
  import opened VectorStore
  import opened Provisioning
  import opened Ownership

  class RunScriptService {
    const store: Store
    const name: string

    /** `name` is `process.env.RUNSCRIPT_COLLECTION_NAME || 'runscripts'`. */
    constructor (store: Store, name: string)
      ensures this.store == store && this.name == name
    {
      this.store := store;
      this.name := name;
    }

    ghost function Ready(cols: Collections): Collections
    {
      Plain(cols, name, NoFaults()).cols
    }

    /** Create on 404, rethrow any other failure; no index. */
    method EnsureCollection(f: Faults) returns (r: Outcome)
      modifies store
      ensures Step(store.collections, r) == Plain(old(store.collections), name, f)
      ensures f == NoFaults() ==> (r == Pass && Provisioned(old(store.collections), store.collections, name)
        && Ready(store.collections) == store.collections)
    {
      PlainProvisions(store.collections, name);
      PlainIdempotent(store.collections, name);
      var probe := store.GetCollection(name, f.getCollection);
      if probe.Fail? {
        if IsNotFoundStatus(probe.error) {
          r := store.CreateCollection(name, EmbeddingSize, f.createCollection);
        } else {
          r := probe;
        }
      } else {
        r := Pass;
      }
    }

    /** `addScript(scriptData)`: `scriptData` is stored verbatim, with no owner stamp. */
    method AddScript(scriptData: Payload, draw: Draw) returns (r: Result<Payload>)
      modifies store
      ensures var cols := Ready(old(store.collections));
        var id := Or(Get(scriptData, "id"), Int(IdOf(draw)));
        && name in cols
        && r == Ok(Stored(id))
        && store.collections == WithPoints(cols, name,
             cols[name].points[id := Point(Embed(Get(scriptData, "script_name")), scriptData)])
    {
      var ready := EnsureCollection(NoFaults());
      var embedding := Embed(Get(scriptData, "script_name"));
      var id := Or(Get(scriptData, "id"), Int(GenerateId(draw.timestamp, draw.random)));
      var written := store.Upsert(name, id, embedding, scriptData);
      r := Ok(Stored(id));
    }

    /** `getScripts()`: at most 100 scripts, unfiltered. */
    method GetScripts() returns (r: Result<seq<Payload>>)
      modifies store
      ensures store.collections == Ready(old(store.collections))
      ensures r.Ok? && Listing(r.value, PointsOf(store.collections, name), None, PageLimit)
    {
      var ready := EnsureCollection(NoFaults());
      var page := store.Scroll(name, None, PageLimit, None);
      r := Ok(Entries(page.value));
    }

    /** `getScriptById(id)` */
    method GetScriptById(id: Value) returns (r: Result<Payload>)
      modifies store
      ensures store.collections == Ready(old(store.collections))
      ensures var pid := NormalizeId(id);
        var pts := PointsOf(store.collections, name);
        && (pid in pts ==> r == Ok(Entry(pid, pts[pid].payload)))
        && (pid !in pts ==> r == Err(NotFound("Script with id " + JsString(pid) + " not found.")))
    {
      var ready := EnsureCollection(NoFaults());
      var pid := NormalizeId(id);
      var found := store.Retrieve(name, pid);
      if |found.value| == 0 {
        return Err(NotFound("Script with id " + JsString(pid) + " not found."));
      }
      r := Ok(Entry(found.value[0].id, found.value[0].payload));
    }

    /** `updateScript(id, scriptData)`: no existence check; the point is replaced wholesale,
        or created when absent. */
    method UpdateScript(id: Value, scriptData: Payload) returns (r: Result<Payload>)
      modifies store
      ensures var cols := Ready(old(store.collections));
        var pid := NormalizeId(id);
        && name in cols
        && r == Ok(Stored(pid))
        && store.collections == WithPoints(cols, name,
             cols[name].points[pid := Point(Embed(Get(scriptData, "script_name")), scriptData)])
    {
      var ready := EnsureCollection(NoFaults());
      var pid := NormalizeId(id);
      var embedding := Embed(Get(scriptData, "script_name"));
      var written := store.Upsert(name, pid, embedding, scriptData);
      r := Ok(Stored(pid));
    }

    /** `deleteScript(id)`: fails on an absent point, otherwise deletes it. */
    method DeleteScript(id: Value) returns (r: Result<Payload>)
      modifies store
      ensures var cols := Ready(old(store.collections));
        var pid := NormalizeId(id);
        var pts := PointsOf(cols, name);
        && name in cols
        && (pid !in pts ==>
              r == Err(NotFound("Point with id " + JsString(pid) + " not found.")) && store.collections == cols)
        && (pid in pts ==> r == Ok(Done()) && store.collections == WithPoints(cols, name, pts - {pid}))
    {
      var ready := EnsureCollection(NoFaults());
      var pid := NormalizeId(id);
      var existing := store.Retrieve(name, pid);
      if |existing.value| == 0 {
        return Err(NotFound("Point with id " + JsString(pid) + " not found."));
      }
      var deleted := store.Delete(name, pid);
      r := Ok(Done());
    }
  }
}
