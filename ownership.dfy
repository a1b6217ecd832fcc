// The access policy the resource services share: which roles are privileged,
// how a stored record's owner is compared with the caller, and what a
// role-filtered listing returns. Each service picks its own variant.

module Ownership {
  import opened Values
  import opened Results
  import opened VectorStore

  /** `role === 'superAdmin' || role === 'Admin'` */
  predicate Privileged(role: Value)
  {
    StrictEquals(role, Str("superAdmin")) || StrictEquals(role, Str("Admin"))
  }

  /** `role === 'superAdmin'` (the chat histories' notion of privilege) */
  predicate SuperAdmin(role: Value)
  {
    StrictEquals(role, Str("superAdmin"))
  }

  /** How an owner check compares: `String(owner) !== String(userId)` or `owner !== userId`. */
  datatype Comparison = Loose | Strict

  predicate SameOwner(cmp: Comparison, owner: Value, userId: Value)
  {
    match cmp
    case Loose => JsString(owner) == JsString(userId)
    case Strict => StrictEquals(owner, userId)
  }

  /** The outcome of the existence-then-ownership checks before a write. */
  datatype Access = Missing | Denied | Granted

  /** Not found first; then a caller who is neither privileged nor the owner of the
      stored `userId` is refused. */
  function Check(pts: map<Value, Point>, pid: Value, privileged: bool, cmp: Comparison, userId: Value): (a: Access)
    ensures a == Missing <==> pid !in pts
    ensures a == Granted <==> pid in pts && (privileged || SameOwner(cmp, Get(pts[pid].payload, "userId"), userId))
  {
    if pid !in pts then Missing
    else if privileged || SameOwner(cmp, Get(pts[pid].payload, "userId"), userId) then Granted
    else Denied
  }

  /** The owner filter of a listing: none for privileged callers, `userId` equality otherwise. */
  function OwnerFilter(privileged: bool, userId: Value): (f: Option<Match>)
    ensures privileged <==> f.None?
    ensures !privileged ==> f.value == Match("userId", userId)
  {
    if privileged then None else Some(Match("userId", userId))
  }

  /** `{...data, userId}`: the caller's id is stamped over any `userId` the data carries. */
  function Stamped(data: Payload, userId: Value): (p: Payload)
    ensures p.Keys == data.Keys + {"userId"}
    ensures p["userId"] == userId
    ensures forall k :: k in data && k != "userId" ==> p[k] == data[k]
  {
    Merge(data, map["userId" := userId])
  }

  /** `{success: true, id}` */
  function Stored(id: Value): Payload
  {
    map["success" := Bool(true), "id" := id]
  }

  /** `{success: true}` */
  function Done(): Payload
  {
    map["success" := Bool(true)]
  }

  /** The page size every listing asks for. */
  const PageLimit: nat := 100

  /** `points.map(point => ({id: point.id, ...point.payload}))` */
  function Entries(recs: seq<Record>): (es: seq<Payload>)
    ensures |es| == |recs|
    ensures forall i :: 0 <= i < |recs| ==> es[i] == Entry(recs[i].id, recs[i].payload)
  {
    seq(|recs|, i requires 0 <= i < |recs| => Entry(recs[i].id, recs[i].payload))
  }

  /** `points.map(point => point.payload)` */
  function Payloads(recs: seq<Record>): (ps: seq<Payload>)
    ensures |ps| == |recs|
    ensures forall i :: 0 <= i < |recs| ==> ps[i] == recs[i].payload
  {
    seq(|recs|, i requires 0 <= i < |recs| => recs[i].payload)
  }

  /** What a listing may return: the entries of one scroll page. */
  ghost predicate Listing(es: seq<Payload>, pts: map<Value, Point>, filter: Option<Match>, limit: nat)
  {
    exists page :: Page(page, pts, filter, limit) && es == Entries(page)
  }

  /** What a payload-only listing may return: the payloads of one unfiltered scroll page,
      without their ids. */
  ghost predicate PayloadListing(ps: seq<Payload>, pts: map<Value, Point>, limit: nat)
  {
    exists page :: Page(page, pts, None, limit) && ps == Payloads(page)
  }

  /** `p` is the payload of some stored point. */
  ghost predicate StoredPayload(p: Payload, pts: map<Value, Point>)
  {
    exists k :: k in pts && p == pts[k].payload
  }

  /** Every payload listed is a stored one, and at most a page of them is returned. */
  lemma PayloadListingShowsStoredPayloads(ps: seq<Payload>, pts: map<Value, Point>, limit: nat)
    requires PayloadListing(ps, pts, limit)
    ensures |ps| <= limit
    ensures forall i :: 0 <= i < |ps| ==> StoredPayload(ps[i], pts)
  {
    var page: seq<Record> :| Page(page, pts, None, limit) && ps == Payloads(page);
    forall i | 0 <= i < |ps|
      ensures StoredPayload(ps[i], pts)
    {
      var k := page[i].id;
      assert page[i] == AsRecord(k, pts[k]);
      assert k in pts && ps[i] == pts[k].payload;
    }
  }

  /** A filtered listing shows a non-privileged caller only records stamped with their own id. */
  lemma ListingIsolation(es: seq<Payload>, pts: map<Value, Point>, userId: Value, limit: nat)
    requires Listing(es, pts, OwnerFilter(false, userId), limit)
    ensures forall i :: 0 <= i < |es| ==> "userId" in es[i] && es[i]["userId"] == userId
  {
    var page: seq<Record> :| Page(page, pts, OwnerFilter(false, userId), limit) && es == Entries(page);
    forall i | 0 <= i < |es|
      ensures "userId" in es[i] && es[i]["userId"] == userId
    {
      assert Matches(Some(Match("userId", userId)), page[i].payload);
    }
  }

  /** `e` shows some stored point. */
  ghost predicate StoredEntry(e: Payload, pts: map<Value, Point>)
  {
    exists k :: k in pts && e == Entry(k, pts[k].payload)
  }

  /** Every listed entry is a stored record, shown with its payload. */
  lemma ListingShowsStoredRecords(es: seq<Payload>, pts: map<Value, Point>, filter: Option<Match>, limit: nat)
    requires Listing(es, pts, filter, limit)
    ensures |es| <= limit
    ensures forall i :: 0 <= i < |es| ==> StoredEntry(es[i], pts)
  {
    var page: seq<Record> :| Page(page, pts, filter, limit) && es == Entries(page);
    forall i | 0 <= i < |es|
      ensures StoredEntry(es[i], pts)
    {
      var k := page[i].id;
      assert page[i] == AsRecord(k, pts[k]);
      assert k in pts && es[i] == Entry(k, pts[k].payload);
    }
  }

  /** With fewer points than the page size a listing is complete: it shows every stored
      record the filter admits (with no filter, a privileged caller's, every record). */
  lemma ListingCompleteWhenSmall(es: seq<Payload>, pts: map<Value, Point>, filter: Option<Match>, limit: nat)
    requires Listing(es, pts, filter, limit) && |pts| < limit
    ensures forall k :: k in pts && Matches(filter, pts[k].payload) ==> Entry(k, pts[k].payload) in es
  {
    var page: seq<Record> :| Page(page, pts, filter, limit) && es == Entries(page);
    PageFitsCollection(page, pts);
    forall k | k in pts && Matches(filter, pts[k].payload)
      ensures Entry(k, pts[k].payload) in es
    {
      ShortPageListsMatch(page, pts, filter, limit, k);
    }
  }

  /** A page shorter than its limit has an entry for each matching stored record. */
  lemma ShortPageListsMatch(page: seq<Record>, pts: map<Value, Point>, filter: Option<Match>, limit: nat, k: Value)
    requires Page(page, pts, filter, limit) && |page| < limit
    requires k in pts && Matches(filter, pts[k].payload)
    ensures Entry(k, pts[k].payload) in Entries(page)
  {
    assert k in Ids(page);
    var i :| 0 <= i < |page| && Ids(page)[i] == k;
    assert page[i] == AsRecord(k, pts[k]);
    assert Entries(page)[i] == Entry(k, pts[k].payload);
  }

  /** Drift between update and delete: a numeric owner and the same id sent as a string
      pass the `String` comparison of the updates but fail the strict one of the deletes. */
  lemma UpdateAllowedDeleteForbidden()
    ensures var pts := map[Int(1) := Point(NoVector, map["userId" := Int(7)])];
      && Check(pts, Int(1), Privileged(Str("user")), Loose, Str("7")) == Granted
      && Check(pts, Int(1), Privileged(Str("user")), Strict, Str("7")) == Denied
  {
    LooseDoesNotImplyStrict();
  }

  /** Whatever the strict check admits, the loose one admits too. */
  lemma StrictGrantImpliesLoose(pts: map<Value, Point>, pid: Value, privileged: bool, userId: Value)
    requires Check(pts, pid, privileged, Strict, userId) == Granted
    ensures Check(pts, pid, privileged, Loose, userId) == Granted
  {
    if !privileged {
      StrictImpliesLoose(Get(pts[pid].payload, "userId"), userId);
    }
  }

  /** When both the stored owner and the caller's id are integers, the two checks agree. */
  lemma ChecksAgreeOnIntegerOwners(pts: map<Value, Point>, pid: Value, privileged: bool, userId: int)
    requires pid in pts && Get(pts[pid].payload, "userId").Int?
    ensures Check(pts, pid, privileged, Loose, Int(userId)) == Check(pts, pid, privileged, Strict, Int(userId))
  {
    LooseEqualityOnIntegers(Get(pts[pid].payload, "userId").n, userId);
  }

  /** An update that merges data without a `userId` key leaves every access check on the
      record as it was. */
  lemma MergeKeepsAccess(pts: map<Value, Point>, pid: Value, data: Payload, v: Vector)
    requires pid in pts && "userId" !in data
    ensures var after := pts[pid := Point(v, Merge(pts[pid].payload, data))];
      forall privileged, cmp, u :: Check(after, pid, privileged, cmp, u) == Check(pts, pid, privileged, cmp, u)
  {
  }

  /** ... whereas merged data carrying another `userId` hands the record over: the former
      owner is refused by the next owner check, and the new one admitted. */
  lemma MergeCanReassignOwner(pts: map<Value, Point>, pid: Value, data: Payload, v: Vector)
    requires pid in pts && "userId" in data
    requires JsString(data["userId"]) != JsString(Get(pts[pid].payload, "userId"))
    ensures var after := pts[pid := Point(v, Merge(pts[pid].payload, data))];
      && Check(after, pid, false, Loose, Get(pts[pid].payload, "userId")) == Denied
      && Check(after, pid, false, Loose, data["userId"]) == Granted
  {
  }

  /** An `Admin` is privileged for the shared policy but not for the chat histories' delete. */
  lemma AdminIsNotSuperAdmin()
    ensures Privileged(Str("Admin")) && !SuperAdmin(Str("Admin"))
  {
  }
}
