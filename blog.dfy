// BlogService: blog posts embedded by their `content` and stored as sent. The
// service imports the id utilities' whole exports object under the name
// `generateId`, so a post without an id of its own cannot be stored: calling
// that object throws before anything is written.

module Blogs {
  import opened Values
  import opened Results
  import opened Ids
  import opened VectorStore
  import opened Provisioning
  import opened Ownership

  class BlogService {
    const store: Store
    const name: string

    /** `name` is `process.env.BLOG_COLLECTION_NAME || 'blogs'`. */
    constructor (store: Store, name: string)
      ensures this.store == store && this.name == name
    {
      this.store := store;
      this.name := name;
    }

    ghost function Ready(cols: Collections): Collections
    {
      Plain(cols, name, NoFaults()).cols
    }

    /** Create on 404, rethrow any other failure; no index. */
    method EnsureCollection(f: Faults) returns (r: Outcome)
      modifies store
      ensures Step(store.collections, r) == Plain(old(store.collections), name, f)
      ensures f == NoFaults() ==> (r == Pass && Provisioned(old(store.collections), store.collections, name)
        && Ready(store.collections) == store.collections)
    {
      PlainProvisions(store.collections, name);
      PlainIdempotent(store.collections, name);
      var probe := store.GetCollection(name, f.getCollection);
      if probe.Fail? {
        if IsNotFoundStatus(probe.error) {
          r := store.CreateCollection(name, EmbeddingSize, f.createCollection);
        } else {
          r := probe;
        }
      } else {
        r := Pass;
      }
    }

    /** `addBlog(blogData)`: stores `blogData` verbatim under `blogData.id`; a falsy id
        reaches the call of the exports object and fails. */
    method AddBlog(blogData: Payload) returns (r: Result<Payload>)
      modifies store
      ensures var cols := Ready(old(store.collections));
        var id := Get(blogData, "id");
        && name in cols
        && (Truthy(id) ==>
              && r == Ok(Stored(id))
              && store.collections == WithPoints(cols, name,
                   cols[name].points[id := Point(Embed(Get(blogData, "content")), blogData)]))
        && (!Truthy(id) ==> r == Err(TypeFault("generateId is not a function")) && store.collections == cols)
    {
      var ready := EnsureCollection(NoFaults());
      var embedding := Embed(Get(blogData, "content"));
      var id := Get(blogData, "id");
      if !Truthy(id) {
        return Err(TypeFault("generateId is not a function"));
      }
      var written := store.Upsert(name, id, embedding, blogData);
      r := Ok(Stored(id));
    }

    /** `getBlogs()`: at most 100 payloads, without their ids. */
    method GetBlogs() returns (r: Result<seq<Payload>>)
      modifies store
      ensures store.collections == Ready(old(store.collections))
      ensures r.Ok? && PayloadListing(r.value, PointsOf(store.collections, name), PageLimit)
    {
      var ready := EnsureCollection(NoFaults());
      var page := store.Scroll(name, None, PageLimit, None);
      r := Ok(Payloads(page.value));
    }
  }
}
