// ExpensesService: expenses embedded by their `description`, with owner checks; an
// update replaces the stored payload wholesale.

module Expenses {
  import opened Values
  import opened Results
  import opened Ids
  import opened VectorStore
  import opened Provisioning
  import opened Ownership

  class ExpensesService {
    const store: Store
    const name: string

    /** `name` is `process.env.EXPENSES_COLLECTION_NAME || 'expenses'`. */
    constructor (store: Store, name: string)
      ensures this.store == store && this.name == name
    {
      this.store := store;
      this.name := name;
    }

    ghost function Ready(cols: Collections): Collections
    {
      Plain(cols, name, NoFaults()).cols
    }

    method EnsureCollection(f: Faults) returns (r: Outcome)
      modifies store
      ensures Step(store.collections, r) == Plain(old(store.collections), name, f)
      ensures f == NoFaults() ==> (r == Pass && Provisioned(old(store.collections), store.collections, name)
        && Ready(store.collections) == store.collections)
    {
      PlainProvisions(store.collections, name);
      PlainIdempotent(store.collections, name);
      var probe := store.GetCollection(name, f.getCollection);
      if probe.Fail? {
        if IsNotFoundStatus(probe.error) {
          r := store.CreateCollection(name, EmbeddingSize, f.createCollection);
        } else {
          r := probe;
        }
      } else {
        r := Pass;
      }
    }

    /** `addExpense(expenseData, userId)`: embeds `description`; the caller is stamped as owner. */
    method AddExpense(expenseData: Payload, userId: Value, draw: Draw) returns (r: Result<Payload>)
      modifies store
      ensures var cols := Ready(old(store.collections));
        var id := Or(Get(expenseData, "id"), Int(IdOf(draw)));
        && name in cols
        && r == Ok(Stored(id))
        && store.collections == WithPoints(cols, name,
             cols[name].points[id := Point(Embed(Get(expenseData, "description")), Stamped(expenseData, userId))])
    {
      var ready := EnsureCollection(NoFaults());
      var embedding := Embed(Get(expenseData, "description"));
      var id := Or(Get(expenseData, "id"), Int(GenerateId(draw.timestamp, draw.random)));
      var written := store.Upsert(name, id, embedding, Stamped(expenseData, userId));
      r := Ok(Stored(id));
    }

    /** `getExpenses(userId, role)`: an empty filter for privileged callers. */
    method GetExpenses(userId: Value, role: Value) returns (r: Result<seq<Payload>>)
      modifies store
      ensures store.collections == Ready(old(store.collections))
      ensures r.Ok? && Listing(r.value, PointsOf(store.collections, name), OwnerFilter(Privileged(role), userId), PageLimit)
    {
      var ready := EnsureCollection(NoFaults());
      var page := store.Scroll(name, OwnerFilter(Privileged(role), userId), PageLimit, None);
      r := Ok(Entries(page.value));
    }

    /** `getExpenseById(id)` */
    method GetExpenseById(id: Value) returns (r: Result<Payload>)
      modifies store
      ensures store.collections == Ready(old(store.collections))
      ensures var pid := NormalizeId(id);
        var pts := PointsOf(store.collections, name);
        && (pid in pts ==> r == Ok(Entry(pid, pts[pid].payload)))
        && (pid !in pts ==> r == Err(NotFound("Expense with id " + JsString(pid) + " not found.")))
    {
      var ready := EnsureCollection(NoFaults());
      var pid := NormalizeId(id);
      var found := store.Retrieve(name, pid);
      if |found.value| == 0 {
        return Err(NotFound("Expense with id " + JsString(pid) + " not found."));
      }
      r := Ok(Entry(found.value[0].id, found.value[0].payload));
    }

    /** `updateExpense(id, expenseData, userId, role)`: strict owner check; the new
        payload is `expenseData` alone. */
    method UpdateExpense(id: Value, expenseData: Payload, userId: Value, role: Value) returns (r: Result<Payload>)
      modifies store
      ensures var cols := Ready(old(store.collections));
        var pid := NormalizeId(id);
        var pts := PointsOf(cols, name);
        && name in cols
        && match Check(pts, pid, Privileged(role), Strict, userId)
           case Missing =>
             r == Err(NotFound("Point with id " + JsString(id) + " not found")) && store.collections == cols
           case Denied =>
             r == Err(Forbidden("Forbidden")) && store.collections == cols
           case Granted =>
             && r == Ok(Stored(pid))
             && store.collections == WithPoints(cols, name,
                  pts[pid := Point(Embed(Get(expenseData, "description")), expenseData)])
    {
      var ready := EnsureCollection(NoFaults());
      var pid := NormalizeId(id);
      var existing := store.Retrieve(name, pid);
      if |existing.value| == 0 {
        return Err(NotFound("Point with id " + JsString(id) + " not found"));
      }
      var payload := existing.value[0].payload;
      if !Privileged(role) && !StrictEquals(Get(payload, "userId"), userId) {
        return Err(Forbidden("Forbidden"));
      }
      var embedding := Embed(Get(expenseData, "description"));
      var written := store.Upsert(name, pid, embedding, expenseData);
      r := Ok(Stored(pid));
    }

    /** `deleteExpense(id, userId, role)`: the owner check is strict. */
    method DeleteExpense(id: Value, userId: Value, role: Value) returns (r: Result<Payload>)
      modifies store
      ensures var cols := Ready(old(store.collections));
        var pid := NormalizeId(id);
        var pts := PointsOf(cols, name);
        && name in cols
        && match Check(pts, pid, Privileged(role), Strict, userId)
           case Missing =>
             r == Err(NotFound("Point with id " + JsString(pid) + " not found.")) && store.collections == cols
           case Denied =>
             r == Err(Forbidden("Forbidden")) && store.collections == cols
           case Granted =>
             r == Ok(Done()) && store.collections == WithPoints(cols, name, pts - {pid})
    {
      var ready := EnsureCollection(NoFaults());
      var pid := NormalizeId(id);
      var existing := store.Retrieve(name, pid);
      if |existing.value| == 0 {
        return Err(NotFound("Point with id " + JsString(pid) + " not found."));
      }
      if !Privileged(role) && !StrictEquals(Get(existing.value[0].payload, "userId"), userId) {
        return Err(Forbidden("Forbidden"));
      }
      var deleted := store.Delete(name, pid);
      r := Ok(Done());
    }
  }

  /** The wholesale replacement drops the owner unless the data repeats it: after an
      update whose data has no `userId`, the former owner (and any caller with an id) is
      refused by the strict checks and no longer sees the expense in their listing. */
  lemma ExpenseUpdateOrphansRecord(pts: map<Value, Point>, pid: Value, expenseData: Payload, v: Vector, owner: Value)
    requires pid in pts && "userId" !in expenseData && owner != Undefined
    ensures var after := pts[pid := Point(v, expenseData)];
      && Check(after, pid, false, Strict, owner) == Denied
      && !Matches(OwnerFilter(false, owner), after[pid].payload)
  {
  }
}
