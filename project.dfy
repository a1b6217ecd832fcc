// ProjectService: projects with owner checks and a per-project list of views.

module Projects {
  import opened Values
  import opened Results
  import opened Ids
  import opened VectorStore
  import opened Provisioning
  import opened Ownership

  /** `{...projectData, views: [], userId}` */
  function NewProjectPayload(projectData: Payload, userId: Value): (p: Payload)
    ensures p.Keys == projectData.Keys + {"views", "userId"}
    ensures p["views"] == Arr([]) && p["userId"] == userId
    ensures forall k :: k in projectData && k != "views" && k != "userId" ==> p[k] == projectData[k]
  {
    Merge(projectData, map["views" := Arr([]), "userId" := userId])
  }

  /** `const views = project.views || []; views.push({timestamp: now})` */
  function AppendView(views: Value, now: Value): (r: Result<seq<Value>>)
    ensures !Truthy(views) ==> r == Ok([Obj(map["timestamp" := now])])
    ensures Truthy(views) && !views.Arr? ==> r.Err? && r.error.TypeFault?
    ensures views.Arr? ==>
      (r.Ok? && |r.value| == |views.items| + 1
       && r.value[..|views.items|] == views.items
       && r.value[|views.items|] == Obj(map["timestamp" := now]))
  {
    var list := Or(views, Arr([]));
    assert list.Arr? ==> [] + [Obj(map["timestamp" := now])] == [Obj(map["timestamp" := now])];
    if list.Arr? then Ok(list.items + [Obj(map["timestamp" := now])])
    else Err(TypeFault("views.push is not a function"))
  }

  class ProjectService {
    const store: Store
    const name: string

    /** `name` is `process.env.PROJECT_COLLECTION_NAME || 'projects'`. */
    constructor (store: Store, name: string)
      ensures this.store == store && this.name == name
    {
      this.store := store;
      this.name := name;
    }

    ghost function Ready(cols: Collections): Collections
    {
      Indexed(cols, name, NoFaults()).cols
    }

    method EnsureCollection(f: Faults) returns (r: Outcome)
      modifies store
      ensures Step(store.collections, r) == Indexed(old(store.collections), name, f)
      ensures f == NoFaults() ==> (r == Pass && Provisioned(old(store.collections), store.collections, name)
        && Ready(store.collections) == store.collections)
    {
      IndexedProvisions(store.collections, name);
      IndexedIdempotent(store.collections, name);
      var probe := store.GetCollection(name, f.getCollection);
      if probe.Fail? {
        if IsNotFoundStatus(probe.error) {
          r := store.CreateCollection(name, EmbeddingSize, f.createCollection);
          if r.Fail? {
            return;
          }
        } else {
          return probe;
        }
      }
      var indexed := store.CreatePayloadIndex(name, "userId", "integer", f.firstIndex);
      r := Pass;
    }

    /** `addProject(projectData, userId)`: embeds `longDescription`. */
    method AddProject(projectData: Payload, userId: Value, draw: Draw) returns (r: Result<Payload>)
      modifies store
      ensures var cols := Ready(old(store.collections));
        var id := Or(Get(projectData, "id"), Int(IdOf(draw)));
        && name in cols
        && r == Ok(Stored(id))
        && store.collections == WithPoints(cols, name,
             cols[name].points[id := Point(Embed(Get(projectData, "longDescription")), NewProjectPayload(projectData, userId))])
    {
      var ready := EnsureCollection(NoFaults());
      var embedding := Embed(Get(projectData, "longDescription"));
      var id := Or(Get(projectData, "id"), Int(GenerateId(draw.timestamp, draw.random)));
      var written := store.Upsert(name, id, embedding, NewProjectPayload(projectData, userId));
      r := Ok(Stored(id));
    }

    /** `getProjects(userId, role)`: any failure of the scroll becomes 'Failed to fetch projects'. */
    method GetProjects(userId: Value, role: Value, fault: Option<Error>) returns (r: Result<seq<Payload>>)
      modifies store
      ensures store.collections == Ready(old(store.collections))
      ensures fault.Some? ==> r == Err(Failed("Failed to fetch projects"))
      ensures fault.None? ==>
        r.Ok? && Listing(r.value, PointsOf(store.collections, name), OwnerFilter(Privileged(role), userId), PageLimit)
    {
      var ready := EnsureCollection(NoFaults());
      var page := store.Scroll(name, OwnerFilter(Privileged(role), userId), PageLimit, fault);
      if page.Err? {
        return Err(Failed("Failed to fetch projects"));
      }
      r := Ok(Entries(page.value));
    }

    /** `updateProject(id, projectData, userId, role)`: merge, re-embedding `longDescription`. */
    method UpdateProject(id: Value, projectData: Payload, userId: Value, role: Value) returns (r: Result<Payload>)
      modifies store
      ensures var cols := Ready(old(store.collections));
        var pid := NormalizeId(id);
        var pts := PointsOf(cols, name);
        && name in cols
        && match Check(pts, pid, Privileged(role), Loose, userId)
           case Missing =>
             r == Err(NotFound("Point with id " + JsString(id) + " not found")) && store.collections == cols
           case Denied =>
             r == Err(Forbidden("Forbidden: You do not own this record")) && store.collections == cols
           case Granted =>
             && r == Ok(Stored(pid))
             && store.collections == WithPoints(cols, name,
                  pts[pid := Point(Embed(Get(projectData, "longDescription")), Merge(pts[pid].payload, projectData))])
    {
      var ready := EnsureCollection(NoFaults());
      var pid := NormalizeId(id);
      var existing := store.Retrieve(name, pid);
      if |existing.value| == 0 {
        return Err(NotFound("Point with id " + JsString(id) + " not found"));
      }
      var payload := existing.value[0].payload;
      if !Privileged(role) && JsString(Get(payload, "userId")) != JsString(userId) {
        return Err(Forbidden("Forbidden: You do not own this record"));
      }
      var embedding := Embed(Get(projectData, "longDescription"));
      var written := store.Upsert(name, pid, embedding, Merge(payload, projectData));
      r := Ok(Stored(pid));
    }

    /** `deleteProject(id, userId, role)`: the owner check is strict. */
    method DeleteProject(id: Value, userId: Value, role: Value) returns (r: Result<Payload>)
      modifies store
      ensures var cols := Ready(old(store.collections));
        var pid := NormalizeId(id);
        var pts := PointsOf(cols, name);
        && name in cols
        && match Check(pts, pid, Privileged(role), Strict, userId)
           case Missing =>
             r == Err(NotFound("Point with id " + JsString(pid) + " not found.")) && store.collections == cols
           case Denied =>
             r == Err(Forbidden("Forbidden")) && store.collections == cols
           case Granted =>
             r == Ok(Done()) && store.collections == WithPoints(cols, name, pts - {pid})
    {
      var ready := EnsureCollection(NoFaults());
      var pid := NormalizeId(id);
      var existing := store.Retrieve(name, pid);
      if |existing.value| == 0 {
        return Err(NotFound("Point with id " + JsString(pid) + " not found."));
      }
      if !Privileged(role) && !StrictEquals(Get(existing.value[0].payload, "userId"), userId) {
        return Err(Forbidden("Forbidden"));
      }
      var deleted := store.Delete(name, pid);
      r := Ok(Done());
    }

    /** `getProjectById(id)` */
    method GetProjectById(id: Value) returns (r: Result<Payload>)
      modifies store
      ensures store.collections == Ready(old(store.collections))
      ensures var pid := NormalizeId(id);
        var pts := PointsOf(store.collections, name);
        && (pid in pts ==> r == Ok(Entry(pid, pts[pid].payload)))
        && (pid !in pts ==> r == Err(NotFound("Project with id " + JsString(pid) + " not found.")))
    {
      var ready := EnsureCollection(NoFaults());
      var pid := NormalizeId(id);
      var found := store.Retrieve(name, pid);
      if |found.value| == 0 {
        return Err(NotFound("Project with id " + JsString(pid) + " not found."));
      }
      r := Ok(Entry(found.value[0].id, found.value[0].payload));
    }

    /** `incrementViewCount(id, userId, role)`: one `{timestamp}` entry appended to `views`,
        written back through `updateProject`. `now` is the `new Date()` of the call. */
    method IncrementViewCount(id: Value, userId: Value, role: Value, now: Value) returns (r: Result<Payload>)
      modifies store
      ensures var cols := Ready(old(store.collections));
        var pid := NormalizeId(id);
        var pts := PointsOf(cols, name);
        && name in cols
        && (pid !in pts ==>
              r == Err(NotFound("Project with id " + JsString(pid) + " not found.")) && store.collections == cols)
        && (pid in pts ==>
              var views := AppendView(Get(pts[pid].payload, "views"), now);
              if views.Err? then r == Err(views.error) && store.collections == cols
              else if Check(pts, pid, Privileged(role), Loose, userId) == Denied then
                r == Err(Forbidden("Forbidden: You do not own this record")) && store.collections == cols
              else
                && r == Ok(map["success" := Bool(true), "title" := Get(pts[pid].payload, "title"),
                               "views" := Arr(views.value)])
                && store.collections == WithPoints(cols, name,
                     pts[pid := Point(Embed(Undefined), Merge(pts[pid].payload, map["views" := Arr(views.value)]))]))
    {
      IndexedIdempotent(store.collections, name);
      var ready := EnsureCollection(NoFaults());
      var pid := NormalizeId(id);
      NormalizeIdempotent(id);
      var project := GetProjectById(pid);
      if project.Err? {
        return Err(project.error);
      }
      ghost var pts := PointsOf(store.collections, name);
      assert Get(project.value, "views") == Get(pts[pid].payload, "views");
      assert Get(project.value, "title") == Get(pts[pid].payload, "title");
      var views := AppendView(Get(project.value, "views"), now);
      if views.Err? {
        return Err(views.error);
      }
      var written := UpdateProject(pid, map["views" := Arr(views.value)], userId, role);
      if written.Err? {
        return Err(written.error);
      }
      r := Ok(map["success" := Bool(true), "title" := Get(project.value, "title"), "views" := Arr(views.value)]);
    }
  }
}
