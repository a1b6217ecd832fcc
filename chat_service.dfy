// ChatService: chat users and their chat histories, kept in two vector-store
// collections without vectors. Only `superAdmin` sees every history and may
// delete any; `Admin` may update any. Deleting a user cascades over the
// histories the unfiltered listing returns.
//
// The service calls `upsertPoint(collection, points)`, `scrollPoints(collection,
// options)`, `getPoint(collection, id)` and `deletePoints(collection, ids)` on its
// QdrantManager, which defines none of them (its `getPoint` takes only an id).
// They are modelled here as the per-collection store calls their names and
// arguments describe; `scrollPoints` is given no limit, so it returns every
// matching point.

module Chat {
  import opened Values
  import opened Results
  import opened Ids
  import opened VectorStore
  import opened Provisioning
  import opened Ownership
  import opened Qdrant

  const ChatUsers: string := "chat_users"
  const ChatHistory: string := "chat_history"

  /** `{fullName, email}` */
  function UserPayload(data: Payload): (p: Payload)
    ensures p.Keys == {"fullName", "email"}
    ensures p["fullName"] == Get(data, "fullName") && p["email"] == Get(data, "email")
  {
    map["fullName" := Get(data, "fullName"), "email" := Get(data, "email")]
  }

  const HistoryFields: set<string> := {"userId", "fullName", "email", "title", "messages"}

  /** `{userId, fullName, email, title, messages}` */
  function HistoryPayload(data: Payload): (p: Payload)
    ensures p.Keys == HistoryFields
    ensures forall k :: k in HistoryFields ==> p[k] == Get(data, k)
  {
    map["userId" := Get(data, "userId"), "fullName" := Get(data, "fullName"), "email" := Get(data, "email"),
        "title" := Get(data, "title"), "messages" := Get(data, "messages")]
  }

  /** The point `saveUser` and `saveChatHistory` answer with: `{id, payload}`. */
  function Saved(id: Value, payload: Payload): Payload
  {
    map["id" := id, "payload" := Obj(payload)]
  }

  /** `getChatHistories`' filter: none for `superAdmin` only. */
  function HistoryFilter(role: Value, userId: Value): (f: Option<Match>)
    ensures f.None? <==> SuperAdmin(role)
    ensures !SuperAdmin(role) ==> f == Some(Match("userId", userId))
  {
    OwnerFilter(SuperAdmin(role), userId)
  }

  /** An `Admin` is filtered like any user when listing histories. */
  lemma AdminSeesOnlyOwnHistories(es: seq<Payload>, pts: map<Value, Point>, userId: Value)
    requires FullListing(es, pts, HistoryFilter(Str("Admin"), userId))
    ensures forall i :: 0 <= i < |es| ==> "userId" in es[i] && es[i]["userId"] == userId
  {
    assert !SuperAdmin(Str("Admin"));
    ListingIsolation(es, pts, userId, |pts| + 1);
  }

  /** What an unlimited `scrollPoints` returns: a page that cannot be full. */
  ghost predicate FullListing(es: seq<Payload>, pts: map<Value, Point>, filter: Option<Match>)
  {
    Listing(es, pts, filter, |pts| + 1)
  }

  /** ... so it holds every matching stored point. */
  lemma FullListingComplete(es: seq<Payload>, pts: map<Value, Point>, filter: Option<Match>)
    requires FullListing(es, pts, filter)
    ensures forall k :: k in pts && Matches(filter, pts[k].payload) ==> Entry(k, pts[k].payload) in es
  {
    ListingCompleteWhenSmall(es, pts, filter, |pts| + 1);
  }

  /** The ids `chat.id` reads on the entries of an unfiltered listing: the point id,
      unless the payload carries an `id` of its own. */
  ghost function ListedIds(pts: map<Value, Point>): set<Value>
  {
    set k | k in pts :: Get(Entry(k, pts[k].payload), "id")
  }

  /** The `chat.id`s of a listing's entries. */
  ghost function EntryIds(es: seq<Payload>): set<Value>
  {
    set j | 0 <= j < |es| :: Get(es[j], "id")
  }

  /** An unfiltered full listing names exactly the listed ids of the collection. */
  lemma FullListingIds(es: seq<Payload>, pts: map<Value, Point>)
    requires FullListing(es, pts, None)
    ensures EntryIds(es) == ListedIds(pts)
  {
    EntryIdsAreListed(es, pts);
    ListedIdsAreEntries(es, pts);
  }

  lemma EntryIdsAreListed(es: seq<Payload>, pts: map<Value, Point>)
    requires FullListing(es, pts, None)
    ensures EntryIds(es) <= ListedIds(pts)
  {
    ListingShowsStoredRecords(es, pts, None, |pts| + 1);
    forall x | x in EntryIds(es)
      ensures x in ListedIds(pts)
    {
      var j :| 0 <= j < |es| && Get(es[j], "id") == x;
      assert StoredEntry(es[j], pts);
      var k :| k in pts && es[j] == Entry(k, pts[k].payload);
    }
  }

  lemma ListedIdsAreEntries(es: seq<Payload>, pts: map<Value, Point>)
    requires FullListing(es, pts, None)
    ensures ListedIds(pts) <= EntryIds(es)
  {
    ListingCompleteWhenSmall(es, pts, None, |pts| + 1);
    forall x | x in ListedIds(pts)
      ensures x in EntryIds(es)
    {
      var k :| k in pts && Get(Entry(k, pts[k].payload), "id") == x;
      assert Matches(None, pts[k].payload);
      var e := Entry(k, pts[k].payload);
      assert e in es;
      var j :| 0 <= j < |es| && es[j] == e;
    }
  }

  /** One more entry of a listing names one more id. */
  lemma EntryIdsExtend(es: seq<Payload>, i: nat)
    requires i < |es|
    ensures EntryIds(es[..i + 1]) == EntryIds(es[..i]) + {Get(es[i], "id")}
  {
    var longer := es[..i + 1];
    assert forall j :: 0 <= j < i ==> longer[j] == es[..i][j];
    assert longer[i] == es[i];
  }

  /** When no history payload carries an `id` key of its own, the listed ids are the
      point ids: the cascade of `deleteUser` then removes every user's chats. */
  lemma ListedIdsArePointIds(pts: map<Value, Point>)
    requires forall k :: k in pts ==> "id" !in pts[k].payload
    ensures ListedIds(pts) == pts.Keys
  {
    forall k | k in pts
      ensures k in ListedIds(pts)
    {
      assert Get(Entry(k, pts[k].payload), "id") == k;
    }
  }

  /** The collections once both chat collections are ensured, users first. */
  ghost function ChatReady(cols: Collections): Collections
  {
    var users := Lenient(cols, ChatUsers, DefaultVectorSize, NoFaults()).cols;
    Lenient(users, ChatHistory, DefaultVectorSize, NoFaults()).cols
  }

  /** Ensuring the chat collections creates what is missing, keeps every stored point,
      and a second time changes nothing. */
  lemma ChatReadyProvisions(cols: Collections)
    ensures var r := ChatReady(cols);
      && ChatUsers in r && ChatHistory in r
      && r.Keys == cols.Keys + {ChatUsers, ChatHistory}
      && PointsOf(r, ChatUsers) == PointsOf(cols, ChatUsers)
      && PointsOf(r, ChatHistory) == PointsOf(cols, ChatHistory)
      && (forall n :: n in cols && n != ChatUsers && n != ChatHistory ==> r[n] == cols[n])
      && ChatReady(r) == r
  {
    var users := Lenient(cols, ChatUsers, DefaultVectorSize, NoFaults()).cols;
    LenientProvisions(cols, ChatUsers, DefaultVectorSize);
    LenientProvisions(users, ChatHistory, DefaultVectorSize);
    var r := ChatReady(cols);
    LenientExistingUnchanged(r, ChatUsers, DefaultVectorSize, NoFaults());
    LenientExistingUnchanged(r, ChatHistory, DefaultVectorSize, NoFaults());
  }

  class ChatService {
    const qdrantManager: QdrantManager

    constructor (qdrantManager: QdrantManager)
      ensures this.qdrantManager == qdrantManager
    {
      this.qdrantManager := qdrantManager;
    }

    /** `ensureCollections()`: `chat_users`, then `chat_history`, through the manager. */
    method EnsureCollections()
      modifies qdrantManager.store
      ensures qdrantManager.store.collections == ChatReady(old(qdrantManager.store.collections))
    {
      var users := qdrantManager.EnsureCollection(ChatUsers, DefaultVectorSize, NoFaults());
      var histories := qdrantManager.EnsureCollection(ChatHistory, DefaultVectorSize, NoFaults());
    }

    /** `saveUser({fullName, email})`: a fresh id; the stored point is also the answer. */
    method SaveUser(data: Payload, draw: Draw) returns (r: Result<Payload>)
      modifies qdrantManager.store
      ensures var cols := ChatReady(old(qdrantManager.store.collections));
        var id := Int(IdOf(draw));
        && ChatUsers in cols
        && r == Ok(Saved(id, UserPayload(data)))
        && qdrantManager.store.collections == WithPoints(cols, ChatUsers,
             cols[ChatUsers].points[id := Point(NoVector, UserPayload(data))])
    {
      ChatReadyProvisions(qdrantManager.store.collections);
      EnsureCollections();
      var id := Int(GenerateId(draw.timestamp, draw.random));
      var written := qdrantManager.store.Upsert(ChatUsers, id, NoVector, UserPayload(data));
      r := Ok(Saved(id, UserPayload(data)));
    }

    /** `saveChatHistory({userId, fullName, email, title, messages})` under a fresh id. */
    method SaveChatHistory(data: Payload, draw: Draw) returns (r: Result<Payload>)
      modifies qdrantManager.store
      ensures var cols := ChatReady(old(qdrantManager.store.collections));
        var id := Int(IdOf(draw));
        && ChatHistory in cols
        && r == Ok(Saved(id, HistoryPayload(data)))
        && qdrantManager.store.collections == WithPoints(cols, ChatHistory,
             cols[ChatHistory].points[id := Point(NoVector, HistoryPayload(data))])
    {
      ChatReadyProvisions(qdrantManager.store.collections);
      EnsureCollections();
      var id := Int(GenerateId(draw.timestamp, draw.random));
      var written := qdrantManager.store.Upsert(ChatHistory, id, NoVector, HistoryPayload(data));
      r := Ok(Saved(id, HistoryPayload(data)));
    }

    /** `getUsers()`: every chat user as `{id, ...payload}`. */
    method GetUsers() returns (r: Result<seq<Payload>>)
      modifies qdrantManager.store
      ensures qdrantManager.store.collections == ChatReady(old(qdrantManager.store.collections))
      ensures r.Ok? && FullListing(r.value, PointsOf(qdrantManager.store.collections, ChatUsers), None)
    {
      ChatReadyProvisions(qdrantManager.store.collections);
      EnsureCollections();
      var page := qdrantManager.store.Scroll(ChatUsers, None, |qdrantManager.store.collections[ChatUsers].points| + 1, None);
      r := Ok(Entries(page.value));
    }

    /** `getChatHistories(userId, role)`: all histories for `superAdmin`, the caller's otherwise. */
    method GetChatHistories(userId: Value, role: Value) returns (r: Result<seq<Payload>>)
      modifies qdrantManager.store
      ensures qdrantManager.store.collections == ChatReady(old(qdrantManager.store.collections))
      ensures r.Ok? && FullListing(r.value, PointsOf(qdrantManager.store.collections, ChatHistory), HistoryFilter(role, userId))
    {
      ChatReadyProvisions(qdrantManager.store.collections);
      EnsureCollections();
      var filter := HistoryFilter(role, userId);
      var page := qdrantManager.store.Scroll(ChatHistory, filter, |qdrantManager.store.collections[ChatHistory].points| + 1, None);
      r := Ok(Entries(page.value));
    }

    /** `getChatHistoryByUserIdAndChatId(userId, chatId)`: the chat when it exists and its
        owner renders as the caller's id; null otherwise. `chatId` is not normalised. */
    method GetChatHistoryByUserIdAndChatId(userId: Value, chatId: Value) returns (r: Result<Option<Payload>>)
      modifies qdrantManager.store
      ensures qdrantManager.store.collections == ChatReady(old(qdrantManager.store.collections))
      ensures var pts := PointsOf(qdrantManager.store.collections, ChatHistory);
        && r.Ok?
        && (r.value.Some? <==> chatId in pts && SameOwner(Loose, Get(pts[chatId].payload, "userId"), userId))
        && (r.value.Some? ==> r.value.value == Entry(chatId, pts[chatId].payload))
    {
      ChatReadyProvisions(qdrantManager.store.collections);
      EnsureCollections();
      var found := qdrantManager.store.Retrieve(ChatHistory, chatId);
      if |found.value| == 1 && JsString(Get(found.value[0].payload, "userId")) == JsString(userId) {
        return Ok(Some(Entry(found.value[0].id, found.value[0].payload)));
      }
      r := Ok(None);
    }

    /** `updateChatHistory(id, chatData, userId, role)`: owner, `superAdmin` or `Admin`;
        the merged payload is written back without a vector. */
    method UpdateChatHistory(id: Value, chatData: Payload, userId: Value, role: Value) returns (r: Result<Payload>)
      modifies qdrantManager.store
      ensures var cols := ChatReady(old(qdrantManager.store.collections));
        var pid := NormalizeId(id);
        var pts := PointsOf(cols, ChatHistory);
        && ChatHistory in cols
        && match Check(pts, pid, Privileged(role), Loose, userId)
           case Missing =>
             r == Err(NotFound("Chat with id " + JsString(id) + " not found"))
             && qdrantManager.store.collections == cols
           case Denied =>
             r == Err(Forbidden("Forbidden: You do not own this chat")) && qdrantManager.store.collections == cols
           case Granted =>
             && r == Ok(Stored(pid))
             && qdrantManager.store.collections == WithPoints(cols, ChatHistory,
                  pts[pid := Point(NoVector, Merge(pts[pid].payload, chatData))])
    {
      ChatReadyProvisions(qdrantManager.store.collections);
      EnsureCollections();
      var pid := NormalizeId(id);
      var existing := qdrantManager.store.Retrieve(ChatHistory, pid);
      if |existing.value| == 0 {
        return Err(NotFound("Chat with id " + JsString(id) + " not found"));
      }
      var payload := existing.value[0].payload;
      if !Privileged(role) && JsString(Get(payload, "userId")) != JsString(userId) {
        return Err(Forbidden("Forbidden: You do not own this chat"));
      }
      var written := qdrantManager.store.Upsert(ChatHistory, pid, NoVector, Merge(payload, chatData));
      r := Ok(Stored(pid));
    }

    /** `deleteChatHistory(id, userId, role)`: owner or `superAdmin` only. */
    method DeleteChatHistory(id: Value, userId: Value, role: Value) returns (r: Result<Payload>)
      modifies qdrantManager.store
      ensures var cols := ChatReady(old(qdrantManager.store.collections));
        var pid := NormalizeId(id);
        var pts := PointsOf(cols, ChatHistory);
        && ChatHistory in cols
        && match Check(pts, pid, SuperAdmin(role), Loose, userId)
           case Missing =>
             r == Err(NotFound("Chat with id " + JsString(id) + " not found"))
             && qdrantManager.store.collections == cols
           case Denied =>
             r == Err(Forbidden("Forbidden: You do not own this chat")) && qdrantManager.store.collections == cols
           case Granted =>
             r == Ok(Done()) && qdrantManager.store.collections == WithPoints(cols, ChatHistory, pts - {pid})
    {
      ChatReadyProvisions(qdrantManager.store.collections);
      EnsureCollections();
      ghost var pts := PointsOf(qdrantManager.store.collections, ChatHistory);
      var pid := NormalizeId(id);
      var chat := qdrantManager.store.Retrieve(ChatHistory, pid);
      if |chat.value| == 0 {
        assert Check(pts, pid, SuperAdmin(role), Loose, userId) == Missing;
        return Err(NotFound("Chat with id " + JsString(id) + " not found"));
      }
      assert chat.value[0].payload == pts[pid].payload;
      if !SuperAdmin(role) && JsString(Get(chat.value[0].payload, "userId")) != JsString(userId) {
        assert Check(pts, pid, SuperAdmin(role), Loose, userId) == Denied;
        return Err(Forbidden("Forbidden: You do not own this chat"));
      }
      assert Check(pts, pid, SuperAdmin(role), Loose, userId) == Granted;
      var deleted := qdrantManager.store.Delete(ChatHistory, pid);
      r := Ok(Done());
    }

    /** The loop of `deleteUser`: one `deletePoints` call per listed chat, on its `chat.id`. */
    method DeleteListed(chats: seq<Payload>)
      modifies qdrantManager.store
      requires ChatHistory in qdrantManager.store.collections
      ensures qdrantManager.store.collections.Keys == old(qdrantManager.store.collections).Keys
      ensures PointsOf(qdrantManager.store.collections, ChatHistory)
        == PointsOf(old(qdrantManager.store.collections), ChatHistory) - EntryIds(chats)
      ensures forall n :: n in old(qdrantManager.store.collections) && n != ChatHistory ==>
        qdrantManager.store.collections[n] == old(qdrantManager.store.collections)[n]
    {
      ghost var cols := qdrantManager.store.collections;
      ghost var pts := PointsOf(cols, ChatHistory);
      for i := 0 to |chats|
        invariant qdrantManager.store.collections.Keys == cols.Keys
        invariant PointsOf(qdrantManager.store.collections, ChatHistory) == pts - EntryIds(chats[..i])
        invariant forall n :: n in cols && n != ChatHistory ==> qdrantManager.store.collections[n] == cols[n]
      {
        EntryIdsExtend(chats, i);
        var deleted := qdrantManager.store.Delete(ChatHistory, Get(chats[i], "id"));
      }
      assert chats[..|chats|] == chats;
    }

    /** `deleteUser(userId)`: lists the histories as `superAdmin` (so unfiltered), deletes
        each listed `chat.id`, then the user point. */
    method DeleteUser(userId: Value) returns (r: Result<Payload>)
      modifies qdrantManager.store
      ensures var cols := ChatReady(old(qdrantManager.store.collections));
        var pts := PointsOf(cols, ChatHistory);
        && ChatUsers in cols && ChatHistory in cols
        && r == Ok(Done())
        && qdrantManager.store.collections.Keys == cols.Keys
        && PointsOf(qdrantManager.store.collections, ChatHistory) == pts - ListedIds(pts)
        && PointsOf(qdrantManager.store.collections, ChatUsers) == PointsOf(cols, ChatUsers) - {NormalizeId(userId)}
        && (forall n :: n in cols && n != ChatUsers && n != ChatHistory ==> qdrantManager.store.collections[n] == cols[n])
    {
      ChatReadyProvisions(qdrantManager.store.collections);
      EnsureCollections();
      ghost var cols := qdrantManager.store.collections;
      ChatReadyProvisions(cols);
      var pid := NormalizeId(userId);
      var chats := GetChatHistories(pid, Str("superAdmin"));
      ghost var pts := PointsOf(cols, ChatHistory);
      FullListingIds(chats.value, pts);
      DeleteListed(chats.value);
      var removed := qdrantManager.store.Delete(ChatUsers, pid);
      r := Ok(Done());
    }
  }

  /** The cascade is not limited to the deleted user: when no payload carries an `id`
      of its own, `deleteUser` leaves the history collection empty. */
  lemma DeleteUserErasesEveryChat(pts: map<Value, Point>)
    requires forall k :: k in pts ==> "id" !in pts[k].payload
    ensures pts - ListedIds(pts) == map[]
  {
    ListedIdsArePointIds(pts);
  }
}
