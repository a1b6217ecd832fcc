// GoalsService: goals with owner checks, and the key results kept as an
// array inside each goal's payload.

module Goals {
  import opened Values
  import opened Results
  import opened Ids
  import opened VectorStore
  import opened Provisioning
  import opened Ownership

  /** `{...goalData, keyResults: [], userId}`: the stamps override whatever the caller sent. */
  function NewGoalPayload(goalData: Payload, userId: Value): (p: Payload)
    ensures p.Keys == goalData.Keys + {"keyResults", "userId"}
    ensures p["keyResults"] == Arr([]) && p["userId"] == userId
    ensures forall k :: k in goalData && k != "keyResults" && k != "userId" ==> p[k] == goalData[k]
  {
    Merge(goalData, map["keyResults" := Arr([]), "userId" := userId])
  }

  /** `Array.isArray(data) ? data : [data]` */
  function AsList(data: Value): seq<Value>
  {
    if data.Arr? then data.items else [data]
  }

  /** `kr.id === id` */
  predicate HasId(kr: Value, id: Value)
  {
    StrictEquals(Prop(kr, "id"), id)
  }

  /** `{...kr, id: generateId()}` */
  function WithFreshId(kr: Value, d: Draw): (n: Value)
    ensures n.Obj? && n.fields.Keys == Spread(kr).Keys + {"id"}
    ensures HasId(n, Int(IdOf(d)))
    ensures forall k :: k in Spread(kr) && k != "id" ==> n.fields[k] == Spread(kr)[k]
  {
    Obj(Merge(Spread(kr), map["id" := Int(IdOf(d))]))
  }

  /** `keyResults.map(kr => ({...kr, id: generateId()}))`, one draw per key result. */
  function FreshKeyResults(krs: seq<Value>, draws: seq<Draw>): (out: seq<Value>)
    requires |draws| == |krs|
    ensures |out| == |krs|
    ensures forall i :: 0 <= i < |krs| ==> out[i] == WithFreshId(krs[i], draws[i])
  {
    seq(|krs|, i requires 0 <= i < |krs| => WithFreshId(krs[i], draws[i]))
  }

  /** New key results get pairwise distinct ids exactly when their draws are distinct. */
  lemma FreshIdsDistinct(krs: seq<Value>, draws: seq<Draw>)
    requires |draws| == |krs|
    ensures var out := FreshKeyResults(krs, draws);
      forall i, j :: 0 <= i < j < |krs| ==> (Prop(out[i], "id") == Prop(out[j], "id") <==> draws[i] == draws[j])
  {
    var out := FreshKeyResults(krs, draws);
    forall i, j | 0 <= i < j < |krs|
      ensures Prop(out[i], "id") == Prop(out[j], "id") <==> draws[i] == draws[j]
    {
      IdsCollideIffSameDraw(draws[i].timestamp, draws[i].random, draws[j].timestamp, draws[j].random);
    }
  }

  /** `keyResults.findIndex(kr => kr.id === id)`: the callback reads `kr.id`, which
      throws on a null or undefined key result reached before the match. */
  function FindKeyResult(krs: seq<Value>, id: Value): (r: Result<int>)
    ensures r.Ok? ==> -1 <= r.value < |krs|
    ensures r.Ok? ==> forall j :: 0 <= j < |krs| && (r.value == -1 || j < r.value) ==>
      !Nullish(krs[j]) && !HasId(krs[j], id)
    ensures r.Ok? && r.value >= 0 ==> !Nullish(krs[r.value]) && HasId(krs[r.value], id)
    ensures r.Err? ==> exists j ::
      (&& 0 <= j < |krs| && Nullish(krs[j]) && r.error == TypeFault(ReadFault(krs[j], "id"))
       && forall l :: 0 <= l < j ==> !Nullish(krs[l]) && !HasId(krs[l], id))
    decreases |krs|
  {
    if krs == [] then Ok(-1)
    else if Nullish(krs[0]) then Err(TypeFault(ReadFault(krs[0], "id")))
    else if HasId(krs[0], id) then Ok(0)
    else
      var rest := FindKeyResult(krs[1..], id);
      assert forall j :: 0 < j < |krs| ==> krs[j] == krs[1..][j - 1];
      if rest.Err? then rest
      else if rest.value == -1 then Ok(-1) else Ok(rest.value + 1)
  }

  /** The body a key-result update merges: the first element of an array body. */
  function UpdateData(data: Value): Value
  {
    if data.Arr? then (if |data.items| > 0 then data.items[0] else Undefined) else data
  }

  /** `keyResults.filter(kr => kr.id !== id)`: the callback reads `kr.id` on every key
      result, so a null or undefined one makes the filter throw. */
  function WithoutKeyResult(krs: seq<Value>, id: Value): (r: Result<seq<Value>>)
    ensures r.Ok? <==> forall j :: 0 <= j < |krs| ==> !Nullish(krs[j])
    ensures r.Ok? ==> |r.value| <= |krs|
    ensures r.Ok? ==> forall x :: x in r.value <==> x in krs && !HasId(x, id)
    ensures r.Ok? && (forall j :: 0 <= j < |krs| ==> !HasId(krs[j], id)) ==> r.value == krs
    ensures r.Err? ==> exists j ::
      (&& 0 <= j < |krs| && Nullish(krs[j]) && r.error == TypeFault(ReadFault(krs[j], "id"))
       && forall l :: 0 <= l < j ==> !Nullish(krs[l]))
    decreases |krs|
  {
    if krs == [] then Ok([])
    else if Nullish(krs[0]) then Err(TypeFault(ReadFault(krs[0], "id")))
    else
      var rest := WithoutKeyResult(krs[1..], id);
      assert forall j :: 0 < j < |krs| ==> krs[j] == krs[1..][j - 1];
      assert krs == [krs[0]] + krs[1..];
      if rest.Err? then rest
      else if HasId(krs[0], id) then rest
      else Ok([krs[0]] + rest.value)
  }

  /** Filtering works piecewise, so the surviving key results keep their order, and the
      first null or undefined key result decides the error. */
  lemma {:induction false} WithoutKeepsOrder(a: seq<Value>, b: seq<Value>, id: Value)
    ensures WithoutKeyResult(a + b, id) ==
      var ra := WithoutKeyResult(a, id);
      var rb := WithoutKeyResult(b, id);
      if ra.Err? then ra else if rb.Err? then rb else Ok(ra.value + rb.value)
    decreases |a|
  {
    if a != [] {
      assert (a + b)[0] == a[0] && (a + b)[1..] == a[1..] + b;
      if !Nullish(a[0]) {
        WithoutKeepsOrder(a[1..], b, id);
        var tail := WithoutKeyResult(a[1..], id);
        var rb := WithoutKeyResult(b, id);
        assert WithoutKeyResult(a[1..] + b, id) ==
          (if tail.Err? then tail else if rb.Err? then rb else Ok(tail.value + rb.value));
        if tail.Ok? && rb.Ok? && !HasId(a[0], id) {
          assert [a[0]] + (tail.value + rb.value) == [a[0]] + tail.value + rb.value;
        }
      }
    } else {
      assert a + b == b;
      var rb := WithoutKeyResult(b, id);
      if rb.Ok? {
        assert [] + rb.value == rb.value;
      }
    }
  }

  /** A null key result stops both searches: `findIndex` when it comes before the match,
      `filter` wherever it is. */
  lemma NullKeyResultExamples()
    ensures FindKeyResult([Null, Obj(map["id" := Int(1)])], Int(1))
      == Err(TypeFault("Cannot read properties of null (reading 'id')"))
    ensures FindKeyResult([Obj(map["id" := Int(1)]), Null], Int(1)) == Ok(0)
    ensures WithoutKeyResult([Obj(map["id" := Int(1)]), Null], Int(1))
      == Err(TypeFault("Cannot read properties of null (reading 'id')"))
  {
    var one := Obj(map["id" := Int(1)]);
    assert HasId(one, Int(1));
    assert [one, Null][1..] == [Null];
    assert ReadFault(Null, "id") == "Cannot read properties of null (reading 'id')";
  }

  /** A key result sent as a string or an array spreads its index keys next to the new id. */
  lemma SequenceKeyResultsSpread(d: Draw, x: Value)
    ensures WithFreshId(Str("ab"), d) == Obj(map["0" := Str("a"), "1" := Str("b"), "id" := Int(IdOf(d))])
    ensures WithFreshId(Arr([x]), d) == Obj(map["0" := x, "id" := Int(IdOf(d))])
  {
    SpreadSequencesExamples(x);
  }

  /** The TypeError of `goal.keyResults.<call>(...)` when the stored `keyResults`
      is not an array. */
  function ListMethodFault(keyResults: Value, call: string): string
  {
    if Nullish(keyResults) then ReadFault(keyResults, call)
    else "goal.keyResults." + call + " is not a function"
  }

  class GoalsService {
    const store: Store
    const name: string

    /** `name` is `process.env.GOALS_COLLECTION_NAME || 'goals'`. */
    constructor (store: Store, name: string)
      ensures this.store == store && this.name == name
    {
      this.store := store;
      this.name := name;
    }

    /** The collections after a normally answering `ensureCollection()`. */
    ghost function Ready(cols: Collections): Collections
    {
      Indexed(cols, name, NoFaults()).cols
    }

    method EnsureCollection(f: Faults) returns (r: Outcome)
      modifies store
      ensures Step(store.collections, r) == Indexed(old(store.collections), name, f)
      ensures f == NoFaults() ==> (r == Pass && Provisioned(old(store.collections), store.collections, name)
        && Ready(store.collections) == store.collections)
    {
      IndexedProvisions(store.collections, name);
      IndexedIdempotent(store.collections, name);
      var probe := store.GetCollection(name, f.getCollection);
      if probe.Fail? {
        if IsNotFoundStatus(probe.error) {
          r := store.CreateCollection(name, EmbeddingSize, f.createCollection);
          if r.Fail? {
            return;
          }
        } else {
          return probe;
        }
      }
      var indexed := store.CreatePayloadIndex(name, "userId", "integer", f.firstIndex);
      r := Pass;
    }

    /** `addGoal(goalData, userId)`: `goalData.id` or a fresh id. */
    method AddGoal(goalData: Payload, userId: Value, draw: Draw) returns (r: Result<Payload>)
      modifies store
      ensures var cols := Ready(old(store.collections));
        var id := Or(Get(goalData, "id"), Int(IdOf(draw)));
        && name in cols
        && r == Ok(Stored(id))
        && store.collections == WithPoints(cols, name,
             cols[name].points[id := Point(Embed(Get(goalData, "title")), NewGoalPayload(goalData, userId))])
    {
      var ready := EnsureCollection(NoFaults());
      var embedding := Embed(Get(goalData, "title"));
      var id := Or(Get(goalData, "id"), Int(GenerateId(draw.timestamp, draw.random)));
      var written := store.Upsert(name, id, embedding, NewGoalPayload(goalData, userId));
      r := Ok(Stored(id));
    }

    /** `getGoals(userId, role)` */
    method GetGoals(userId: Value, role: Value) returns (r: Result<seq<Payload>>)
      modifies store
      ensures store.collections == Ready(old(store.collections))
      ensures r.Ok? && Listing(r.value, PointsOf(store.collections, name), OwnerFilter(Privileged(role), userId), PageLimit)
    {
      var ready := EnsureCollection(NoFaults());
      var page := store.Scroll(name, OwnerFilter(Privileged(role), userId), PageLimit, None);
      r := Ok(Entries(page.value));
    }

    /** `getGoalById(id)` */
    method GetGoalById(id: Value) returns (r: Result<Payload>)
      modifies store
      ensures store.collections == Ready(old(store.collections))
      ensures var pid := NormalizeId(id);
        var pts := PointsOf(store.collections, name);
        && (pid in pts ==> r == Ok(Entry(pid, pts[pid].payload)))
        && (pid !in pts ==> r == Err(NotFound("Goal with id " + JsString(pid) + " not found.")))
    {
      var ready := EnsureCollection(NoFaults());
      var pid := NormalizeId(id);
      var found := store.Retrieve(name, pid);
      if |found.value| == 0 {
        return Err(NotFound("Goal with id " + JsString(pid) + " not found."));
      }
      r := Ok(Entry(found.value[0].id, found.value[0].payload));
    }

    /** `updateGoal(id, goalData, userId, role)`: merge, re-embedding `goalData.title` always. */
    method UpdateGoal(id: Value, goalData: Payload, userId: Value, role: Value) returns (r: Result<Payload>)
      modifies store
      ensures var cols := Ready(old(store.collections));
        var pid := NormalizeId(id);
        var pts := PointsOf(cols, name);
        && name in cols
        && match Check(pts, pid, Privileged(role), Loose, userId)
           case Missing =>
             r == Err(NotFound("Point with id " + JsString(id) + " not found")) && store.collections == cols
           case Denied =>
             r == Err(Forbidden("Forbidden: You do not own this record")) && store.collections == cols
           case Granted =>
             && r == Ok(Stored(pid))
             && store.collections == WithPoints(cols, name,
                  pts[pid := Point(Embed(Get(goalData, "title")), Merge(pts[pid].payload, goalData))])
    {
      var ready := EnsureCollection(NoFaults());
      var pid := NormalizeId(id);
      var existing := store.Retrieve(name, pid);
      if |existing.value| == 0 {
        return Err(NotFound("Point with id " + JsString(id) + " not found"));
      }
      var payload := existing.value[0].payload;
      if !Privileged(role) && JsString(Get(payload, "userId")) != JsString(userId) {
        return Err(Forbidden("Forbidden: You do not own this record"));
      }
      var embedding := Embed(Get(goalData, "title"));
      var written := store.Upsert(name, pid, embedding, Merge(payload, goalData));
      r := Ok(Stored(pid));
    }

    /** `deleteGoal(id, userId, role)`: the owner check is strict. */
    method DeleteGoal(id: Value, userId: Value, role: Value) returns (r: Result<Payload>)
      modifies store
      ensures var cols := Ready(old(store.collections));
        var pid := NormalizeId(id);
        var pts := PointsOf(cols, name);
        && name in cols
        && match Check(pts, pid, Privileged(role), Strict, userId)
           case Missing =>
             r == Err(NotFound("Point with id " + JsString(pid) + " not found.")) && store.collections == cols
           case Denied =>
             r == Err(Forbidden("Forbidden")) && store.collections == cols
           case Granted =>
             r == Ok(Done()) && store.collections == WithPoints(cols, name, pts - {pid})
    {
      var ready := EnsureCollection(NoFaults());
      var pid := NormalizeId(id);
      var existing := store.Retrieve(name, pid);
      if |existing.value| == 0 {
        return Err(NotFound("Point with id " + JsString(pid) + " not found."));
      }
      if !Privileged(role) && !StrictEquals(Get(existing.value[0].payload, "userId"), userId) {
        return Err(Forbidden("Forbidden"));
      }
      var deleted := store.Delete(name, pid);
      r := Ok(Done());
    }

    /** `createKeyResult(goalId, keyResultData, userId, role)`: the new key results, with
        fresh ids, are appended and returned. `draws` holds one clock reading and random
        draw per generated id. */
    method CreateKeyResult(goalId: Value, keyResultData: Value, userId: Value, role: Value, draws: seq<Draw>)
      returns (r: Result<seq<Value>>)
      requires |draws| == |AsList(keyResultData)|
      modifies store
      ensures var cols := Ready(old(store.collections));
        var pid := NormalizeId(goalId);
        var pts := PointsOf(cols, name);
        var added := FreshKeyResults(AsList(keyResultData), draws);
        && name in cols
        && (pid !in pts ==>
              r == Err(NotFound("Goal with id " + JsString(pid) + " not found.")) && store.collections == cols)
        && (pid in pts && !Get(pts[pid].payload, "keyResults").Arr? ==>
              && r == Err(TypeFault(ListMethodFault(Get(pts[pid].payload, "keyResults"), "push")))
              && store.collections == cols)
        && (pid in pts && Get(pts[pid].payload, "keyResults").Arr? ==>
              var updated := Get(pts[pid].payload, "keyResults").items + added;
              if Check(pts, pid, Privileged(role), Loose, userId) == Denied then
                r == Err(Forbidden("Forbidden: You do not own this record")) && store.collections == cols
              else
                && r == Ok(added)
                && store.collections == WithPoints(cols, name,
                     pts[pid := Point(Embed(Undefined), Merge(pts[pid].payload, map["keyResults" := Arr(updated)]))]))
    {
      IndexedIdempotent(store.collections, name);
      var goal := GetGoalById(goalId);
      if goal.Err? {
        return Err(goal.error);
      }
      ghost var pts := PointsOf(store.collections, name);
      ghost var pid := NormalizeId(goalId);
      assert goal.value == Entry(pid, pts[pid].payload);
      assert Get(goal.value, "keyResults") == Get(pts[pid].payload, "keyResults");
      var current := Get(goal.value, "keyResults");
      if !current.Arr? {
        return Err(TypeFault(ListMethodFault(current, "push")));
      }
      var added := FreshKeyResults(AsList(keyResultData), draws);
      var updated := current.items + added;
      var written := UpdateGoal(goalId, map["keyResults" := Arr(updated)], userId, role);
      if written.Err? {
        return Err(written.error);
      }
      r := Ok(added);
    }

    /** `updateKeyResult(goalId, krId, keyResultData, userId, role)`: merge into the first key
        result with that id; the others are left as they are. */
    method UpdateKeyResult(goalId: Value, krId: Value, keyResultData: Value, userId: Value, role: Value)
      returns (r: Result<Value>)
      modifies store
      ensures var cols := Ready(old(store.collections));
        var pid := NormalizeId(goalId);
        var pts := PointsOf(cols, name);
        && name in cols
        && (pid !in pts ==>
              r == Err(NotFound("Goal with id " + JsString(pid) + " not found.")) && store.collections == cols)
        && (pid in pts && !Get(pts[pid].payload, "keyResults").Arr? ==>
              && r == Err(TypeFault(ListMethodFault(Get(pts[pid].payload, "keyResults"), "findIndex")))
              && store.collections == cols)
        && (pid in pts && Get(pts[pid].payload, "keyResults").Arr? ==>
              var krs := Get(pts[pid].payload, "keyResults").items;
              var found := FindKeyResult(krs, NormalizeId(krId));
              var i := if found.Ok? then found.value else -1;
              if found.Err? then
                r == Err(found.error) && store.collections == cols
              else if i == -1 then
                r == Err(NotFound("Key Result with id " + JsString(krId) + " not found.")) && store.collections == cols
              else
                var merged := Obj(Merge(Spread(krs[i]), Spread(UpdateData(keyResultData))));
                if Check(pts, pid, Privileged(role), Loose, userId) == Denied then
                  r == Err(Forbidden("Forbidden: You do not own this record")) && store.collections == cols
                else
                  && r == Ok(merged)
                  && store.collections == WithPoints(cols, name,
                       pts[pid := Point(Embed(Undefined), Merge(pts[pid].payload, map["keyResults" := Arr(krs[i := merged])]))]))
    {
      IndexedIdempotent(store.collections, name);
      var goal := GetGoalById(goalId);
      if goal.Err? {
        return Err(goal.error);
      }
      ghost var pts := PointsOf(store.collections, name);
      ghost var pid := NormalizeId(goalId);
      assert goal.value == Entry(pid, pts[pid].payload);
      assert Get(goal.value, "keyResults") == Get(pts[pid].payload, "keyResults");
      var normalized := NormalizeId(krId);
      var current := Get(goal.value, "keyResults");
      if !current.Arr? {
        return Err(TypeFault(ListMethodFault(current, "findIndex")));
      }
      var found := FindKeyResult(current.items, normalized);
      if found.Err? {
        return Err(found.error);
      }
      var i := found.value;
      if i == -1 {
        return Err(NotFound("Key Result with id " + JsString(krId) + " not found."));
      }
      var merged := Obj(Merge(Spread(current.items[i]), Spread(UpdateData(keyResultData))));
      var updated := current.items[i := merged];
      assert pid in pts && Check(pts, pid, Privileged(role), Loose, userId) != Missing;
      var written := UpdateGoal(goalId, map["keyResults" := Arr(updated)], userId, role);
      if written.Err? {
        return Err(written.error);
      }
      r := Ok(merged);
    }

    /** `deleteKeyResult(goalId, krId, userId, role)`: keep every key result with another id;
        succeeds when none matched too. */
    method DeleteKeyResult(goalId: Value, krId: Value, userId: Value, role: Value) returns (r: Result<Payload>)
      modifies store
      ensures var cols := Ready(old(store.collections));
        var pid := NormalizeId(goalId);
        var pts := PointsOf(cols, name);
        && name in cols
        && (pid !in pts ==>
              r == Err(NotFound("Goal with id " + JsString(pid) + " not found.")) && store.collections == cols)
        && (pid in pts && !Get(pts[pid].payload, "keyResults").Arr? ==>
              && r == Err(TypeFault(ListMethodFault(Get(pts[pid].payload, "keyResults"), "filter")))
              && store.collections == cols)
        && (pid in pts && Get(pts[pid].payload, "keyResults").Arr? ==>
              var filtered := WithoutKeyResult(Get(pts[pid].payload, "keyResults").items, NormalizeId(krId));
              var kept := if filtered.Ok? then filtered.value else [];
              if filtered.Err? then
                r == Err(filtered.error) && store.collections == cols
              else if Check(pts, pid, Privileged(role), Loose, userId) == Denied then
                r == Err(Forbidden("Forbidden: You do not own this record")) && store.collections == cols
              else
                && r == Ok(Done())
                && store.collections == WithPoints(cols, name,
                     pts[pid := Point(Embed(Undefined), Merge(pts[pid].payload, map["keyResults" := Arr(kept)]))]))
    {
      IndexedIdempotent(store.collections, name);
      var goal := GetGoalById(goalId);
      if goal.Err? {
        return Err(goal.error);
      }
      ghost var pts := PointsOf(store.collections, name);
      ghost var pid := NormalizeId(goalId);
      assert goal.value == Entry(pid, pts[pid].payload);
      assert Get(goal.value, "keyResults") == Get(pts[pid].payload, "keyResults");
      var normalized := NormalizeId(krId);
      var current := Get(goal.value, "keyResults");
      if !current.Arr? {
        return Err(TypeFault(ListMethodFault(current, "filter")));
      }
      var filtered := WithoutKeyResult(current.items, normalized);
      if filtered.Err? {
        return Err(filtered.error);
      }
      var kept := filtered.value;
      var written := UpdateGoal(goalId, map["keyResults" := Arr(kept)], userId, role);
      if written.Err? {
        return Err(written.error);
      }
      r := Ok(Done());
    }
  }
}
