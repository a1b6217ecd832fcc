// ContactService: contact-form messages, embedded by their `message`, stored as
// sent under a fresh id.

module Contacts {
  import opened Values
  import opened Results
  import opened Ids
  import opened VectorStore
  import opened Provisioning
  import opened Ownership

  class ContactService {
    const store: Store
    const name: string

    /** `name` is `process.env.CONTACT_COLLECTION_NAME || "contact"`. */
    constructor (store: Store, name: string)
      ensures this.store == store && this.name == name
    {
      this.store := store;
      this.name := name;
    }

    ghost function Ready(cols: Collections): Collections
    {
      Plain(cols, name, NoFaults()).cols
    }

    /** Create on 404, rethrow any other failure; no index. */
    method EnsureCollection(f: Faults) returns (r: Outcome)
      modifies store
      ensures Step(store.collections, r) == Plain(old(store.collections), name, f)
      ensures f == NoFaults() ==> (r == Pass && Provisioned(old(store.collections), store.collections, name)
        && Ready(store.collections) == store.collections)
    {
      PlainProvisions(store.collections, name);
      PlainIdempotent(store.collections, name);
      var probe := store.GetCollection(name, f.getCollection);
      if probe.Fail? {
        if IsNotFoundStatus(probe.error) {
          r := store.CreateCollection(name, EmbeddingSize, f.createCollection);
        } else {
          r := probe;
        }
      } else {
        r := Pass;
      }
    }

    /** `addContact(contactData)`: always a fresh id; the payload is `contactData` verbatim. */
    method AddContact(contactData: Payload, draw: Draw) returns (r: Result<Payload>)
      modifies store
      ensures var cols := Ready(old(store.collections));
        var id := Int(IdOf(draw));
        && name in cols
        && r == Ok(Stored(id))
        && store.collections == WithPoints(cols, name,
             cols[name].points[id := Point(Embed(Get(contactData, "message")), contactData)])
    {
      var ready := EnsureCollection(NoFaults());
      var embedding := Embed(Get(contactData, "message"));
      var id := Int(GenerateId(draw.timestamp, draw.random));
      var written := store.Upsert(name, id, embedding, contactData);
      r := Ok(Stored(id));
    }

    /** `getContact()`: at most 100 payloads, without their ids. */
    method GetContact() returns (r: Result<seq<Payload>>)
      modifies store
      ensures store.collections == Ready(old(store.collections))
      ensures r.Ok? && PayloadListing(r.value, PointsOf(store.collections, name), PageLimit)
    {
      var ready := EnsureCollection(NoFaults());
      var page := store.Scroll(name, None, PageLimit, None);
      r := Ok(Payloads(page.value));
    }
  }
}
