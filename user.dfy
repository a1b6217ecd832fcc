// UserService: the dashboard's user accounts, in the `users` collection. Each
// account is a point with a fixed 4-component vector; passwords are stored
// hashed. Only `createUser` ensures the collection exists.

module Users {
  import opened Values
  import opened Results
  import opened Ids
  import opened VectorStore
  import opened Provisioning
  import opened Ownership

  const UsersCollection: string := "users"

  /** `[0.1, 0.2, 0.3, 0.4]`: every account carries the same placeholder vector. */
  function UserVector(): Vector
  {
    Constant([0.1, 0.2, 0.3, 0.4])
  }

  /** The placeholder vector has exactly the dimension the collection is created with. */
  lemma UserVectorFitsCollection(cols: Collections)
    requires UsersCollection !in cols
    ensures Dimension(UserVector()) == UserEmail(cols, UsersCollection, NoFaults()).cols[UsersCollection].size
  {
    UserEmailProvisions(cols, UsersCollection);
  }

  /** `{email, password: hashedPassword, role}` */
  function AccountPayload(email: Value, hashed: Value, role: Value): Payload
  {
    map["email" := email, "password" := hashed, "role" := role]
  }

  /** `updateUser`'s payload: only the truthy ones of `email`, `role` and `password`,
      the password hashed. */
  function UserUpdatePayload(updates: Payload, hashed: Value): (p: Payload)
    ensures p.Keys <= {"email", "role", "password"}
    ensures "email" in p <==> Truthy(Get(updates, "email"))
    ensures "role" in p <==> Truthy(Get(updates, "role"))
    ensures "password" in p <==> Truthy(Get(updates, "password"))
    ensures "email" in p ==> p["email"] == updates["email"]
    ensures "role" in p ==> p["role"] == updates["role"]
    ensures "password" in p ==> p["password"] == hashed
  {
    var withEmail: Payload := if Truthy(Get(updates, "email")) then map["email" := Get(updates, "email")] else map[];
    var withRole := if Truthy(Get(updates, "role")) then withEmail["role" := Get(updates, "role")] else withEmail;
    if Truthy(Get(updates, "password")) then withRole["password" := hashed] else withRole
  }

  /** An update whose fields are all falsy (an empty string clears nothing) leaves the
      stored account exactly as it was. */
  lemma FalsyUpdateChangesNothing(stored: Payload, updates: Payload, hashed: Value)
    requires !Truthy(Get(updates, "email")) && !Truthy(Get(updates, "role")) && !Truthy(Get(updates, "password"))
    ensures Merge(stored, UserUpdatePayload(updates, hashed)) == stored
  {
    assert UserUpdatePayload(updates, hashed) == map[];
  }

  /** A truthy password always reaches the store hashed, never as sent. */
  lemma UpdateStoresHashedPassword(stored: Payload, updates: Payload, hashed: Value)
    requires Truthy(Get(updates, "password"))
    ensures Merge(stored, UserUpdatePayload(updates, hashed))["password"] == hashed
  {
  }

  class UserService {
    const store: Store

    constructor (store: Store)
      ensures this.store == store
    {
      this.store := store;
    }

    ghost function Ready(cols: Collections): Collections
    {
      UserEmail(cols, UsersCollection, NoFaults()).cols
    }

    /** `ensureCollection()`: 4-dimensional vectors; the `email` index is created right
        after the collection, and its failure propagates. */
    method EnsureCollection(f: Faults) returns (r: Outcome)
      modifies store
      ensures Step(store.collections, r) == UserEmail(old(store.collections), UsersCollection, f)
      ensures f == NoFaults() ==> (r == Pass && Provisioned(old(store.collections), store.collections, UsersCollection)
        && Ready(store.collections) == store.collections)
    {
      UserEmailProvisions(store.collections, UsersCollection);
      UserEmailIdempotent(store.collections, UsersCollection);
      var probe := store.GetCollection(UsersCollection, f.getCollection);
      if probe.Pass? {
        return Pass;
      }
      if !IsNotFoundStatus(probe.error) {
        return probe;
      }
      r := store.CreateCollection(UsersCollection, 4, f.createCollection);
      if r.Fail? {
        return;
      }
      r := store.CreatePayloadIndex(UsersCollection, "email", "keyword", f.firstIndex);
    }

    /** `createUser(email, password, role)`: `hashed` is `bcrypt.hash(password, 10)`, salted
        and so not a function of the password. The answer leaves the password out. */
    method CreateUser(email: Value, password: Value, role: Value, hashed: Value, draw: Draw) returns (r: Result<Payload>)
      modifies store
      ensures var cols := Ready(old(store.collections));
        var id := Int(IdOf(draw));
        && UsersCollection in cols
        && r == Ok(map["id" := id, "email" := email, "role" := role])
        && "password" !in r.value
        && store.collections == WithPoints(cols, UsersCollection,
             cols[UsersCollection].points[id := Point(UserVector(), AccountPayload(email, hashed, role))])
    {
      var ready := EnsureCollection(NoFaults());
      var id := Int(GenerateId(draw.timestamp, draw.random));
      var written := store.Upsert(UsersCollection, id, UserVector(), AccountPayload(email, hashed, role));
      r := Ok(map["id" := id, "email" := email, "role" := role]);
    }

    /** `getUsers()`: at most 100 accounts, unfiltered; fails when the collection is missing. */
    method GetUsers() returns (r: Result<seq<Payload>>)
      ensures UsersCollection !in store.collections ==> r == Err(CollectionMissing(UsersCollection))
      ensures UsersCollection in store.collections ==>
        r.Ok? && Listing(r.value, PointsOf(store.collections, UsersCollection), None, PageLimit)
    {
      var page := store.Scroll(UsersCollection, None, PageLimit, None);
      if page.Err? {
        return Err(page.error);
      }
      r := Ok(Entries(page.value));
    }

    /** `getUserById(id)`: null when absent; the id is used as given. */
    method GetUserById(id: Value) returns (r: Result<Option<Payload>>)
      ensures UsersCollection !in store.collections ==> r == Err(CollectionMissing(UsersCollection))
      ensures var pts := PointsOf(store.collections, UsersCollection);
        UsersCollection in store.collections ==>
          && r.Ok?
          && (r.value.Some? <==> id in pts)
          && (id in pts ==> r.value.value == Entry(id, pts[id].payload))
    {
      var found := store.Retrieve(UsersCollection, id);
      if found.Err? {
        return Err(found.error);
      }
      if |found.value| == 0 {
        return Ok(None);
      }
      r := Ok(Some(Entry(found.value[0].id, found.value[0].payload)));
    }

    /** `updateUser(id, updates)`: `setPayload` of the truthy fields, then `{id, ...updates}`
        echoing the request (the plain password included) rather than the stored account.
        `hashed` is the hash of `updates.password`. */
    method UpdateUser(id: Value, updates: Payload, hashed: Value) returns (r: Result<Payload>)
      modifies store
      ensures var cols := old(store.collections);
        var pts := PointsOf(cols, UsersCollection);
        if UsersCollection in cols && id in pts then
          && r == Ok(Entry(id, updates))
          && store.collections == WithPoints(cols, UsersCollection,
               pts[id := pts[id].(payload := Merge(pts[id].payload, UserUpdatePayload(updates, hashed)))])
        else
          r.Err? && r.error.StoreFault? && r.error.status == 404 && store.collections == cols
    {
      var written := store.SetPayload(UsersCollection, id, UserUpdatePayload(updates, hashed));
      if written.Fail? {
        return Err(written.error);
      }
      r := Ok(Entry(id, updates));
    }

    /** `deleteUser(id)` as intended, with the client's `delete`: answers `{id}`
        whether or not the account existed. */
    method DeleteUser(id: Value) returns (r: Result<Payload>)
      modifies store
      ensures var cols := old(store.collections);
        if UsersCollection in cols then
          r == Ok(map["id" := id])
          && store.collections == WithPoints(cols, UsersCollection, cols[UsersCollection].points - {id})
        else
          r == Err(CollectionMissing(UsersCollection)) && store.collections == cols
    {
      var deleted := store.Delete(UsersCollection, id);
      if deleted.Fail? {
        return Err(deleted.error);
      }
      r := Ok(map["id" := id]);
    }

    /** `deleteUser(id)` as written: the client has no `deletePoints`, so the
        call throws a TypeError before anything is sent and no account is
        removed. `DeleteUser` above is the delete the code evidently intends. */
    method DeleteUserAsWritten(id: Value) returns (r: Result<Payload>)
      ensures r == Err(TypeFault("this.client.deletePoints is not a function"))
    {
      r := Err(TypeFault("this.client.deletePoints is not a function"));
    }
  }
}
