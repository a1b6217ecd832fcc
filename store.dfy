// The vector store (a Qdrant server) as the services use it: named
// collections of points {id, vector, payload}. Vectors are opaque; ranking
// by similarity is not modelled, so a search returns some points of the
// collection, at most as many as asked for.

module VectorStore {
  import opened Values
  import opened Results

  /** An embedding, represented by the text it was computed from; or a literal vector. */
  datatype Vector = Embedding(source: Value) | Constant(components: seq<real>) | NoVector

  /** The embedding model (text-embedding-004). */
  function Embed(text: Value): Vector
  {
    Embedding(text)
  }

  const EmbeddingSize: nat := 768

  /** `embedding.length` */
  function Dimension(v: Vector): nat
  {
    match v
    case Embedding(_) => EmbeddingSize
    case Constant(c) => |c|
    case NoVector => 0
  }

  datatype Point = Point(vector: Vector, payload: Payload)

  /** A point as `retrieve` and `scroll` return it. */
  datatype Record = Record(id: Value, vector: Vector, payload: Payload)

  /** A point as `search` returns it. */
  datatype Hit = Hit(id: Value, score: real, payload: Payload)

  datatype Collection = Collection(
    size: nat,
    distance: string,
    indexes: map<string, string>,   // payload field -> schema
    points: map<Value, Point>)

  type Collections = map<string, Collection>

  /** The points of a collection; a missing collection holds none. */
  function PointsOf(cols: Collections, name: string): map<Value, Point>
  {
    if name in cols then cols[name].points else map[]
  }

  /** The collections with the points of `name` replaced. */
  function WithPoints(cols: Collections, name: string, pts: map<Value, Point>): (r: Collections)
    requires name in cols
    ensures r.Keys == cols.Keys
    ensures PointsOf(r, name) == pts
    ensures r[name].size == cols[name].size && r[name].indexes == cols[name].indexes
    ensures forall n :: n in cols && n != name ==> r[n] == cols[n]
  {
    cols[name := cols[name].(points := pts)]
  }

  function AsRecord(id: Value, p: Point): Record
  {
    Record(id, p.vector, p.payload)
  }

  /** An equality condition `{key, match: {value}}` on a payload field. */
  datatype Match = Match(key: string, value: Value)

  predicate Matches(filter: Option<Match>, payload: Payload)
  {
    filter.None? || (filter.value.key in payload && payload[filter.value.key] == filter.value.value)
  }

  function Ids(recs: seq<Record>): (ids: seq<Value>)
    ensures |ids| == |recs|
    ensures forall i :: 0 <= i < |recs| ==> ids[i] == recs[i].id
  {
    if recs == [] then [] else Ids(recs[..|recs| - 1]) + [recs[|recs| - 1].id]
  }

  /** What one page of a scroll may hold: at most `limit` distinct stored points
      that satisfy the filter, and every such point once the page is not full. */
  ghost predicate Page(recs: seq<Record>, pts: map<Value, Point>, filter: Option<Match>, limit: nat)
  {
    && |recs| <= limit
    && (forall i :: 0 <= i < |recs| ==>
          recs[i].id in pts && recs[i] == AsRecord(recs[i].id, pts[recs[i].id])
          && Matches(filter, recs[i].payload))
    && (forall i, j :: 0 <= i < j < |recs| ==> recs[i].id != recs[j].id)
    && (|recs| < limit ==> forall k :: k in pts && Matches(filter, pts[k].payload) ==> k in Ids(recs))
  }

  /** What a search may return: `limit` distinct stored points with their payloads, or
      every stored point when the collection holds fewer. */
  ghost predicate Hits(hits: seq<Hit>, pts: map<Value, Point>, limit: nat)
  {
    && |hits| == (if |pts| < limit then |pts| else limit)
    && (forall i :: 0 <= i < |hits| ==> hits[i].id in pts && hits[i].payload == pts[hits[i].id].payload)
    && (forall i, j :: 0 <= i < j < |hits| ==> hits[i].id != hits[j].id)
  }

  /** A page holds distinct stored ids, so never more records than the collection has points. */
  lemma {:induction false} PageFitsCollection(recs: seq<Record>, pts: map<Value, Point>)
    requires forall i :: 0 <= i < |recs| ==> recs[i].id in pts
    requires forall i, j :: 0 <= i < j < |recs| ==> recs[i].id != recs[j].id
    ensures |recs| <= |pts|
    decreases |recs|
  {
    if recs != [] {
      var last := recs[|recs| - 1];
      var rest := recs[..|recs| - 1];
      var smaller := pts - {last.id};
      forall i | 0 <= i < |rest|
        ensures rest[i].id in smaller
      {
        assert rest[i].id != last.id;
      }
      PageFitsCollection(rest, smaller);
    }
  }

  /** Keys that all appear among the ids of some records are no more than the records. */
  lemma {:induction false} CoveredKeys(recs: seq<Record>, keys: set<Value>)
    requires forall k :: k in keys ==> k in Ids(recs)
    ensures |keys| <= |recs|
    decreases |recs|
  {
    if recs != [] {
      var rest := recs[..|recs| - 1];
      var last := recs[|recs| - 1].id;
      forall k | k in keys - {last}
        ensures k in Ids(rest)
      {
        var i :| 0 <= i < |recs| && Ids(recs)[i] == k;
        assert Ids(rest)[i] == k;
      }
      CoveredKeys(rest, keys - {last});
    }
  }

  /** An unfiltered page holds `limit` records, or the whole collection when it is smaller. */
  lemma UnfilteredPageSize(recs: seq<Record>, pts: map<Value, Point>, limit: nat)
    requires Page(recs, pts, None, limit)
    ensures |recs| == (if |pts| < limit then |pts| else limit)
  {
    PageFitsCollection(recs, pts);
    if |recs| < limit {
      CoveredKeys(recs, pts.Keys);
    }
  }

  function CollectionMissing(name: string): Error
  {
    StoreFault(404, "Not found: Collection `" + name + "` doesn't exist!")
  }

  function CollectionExists(name: string): Error
  {
    StoreFault(409, "Wrong input: Collection `" + name + "` already exists!")
  }

  /** A store call's effect: the collections afterwards and whether it failed. */
  datatype Step = Step(cols: Collections, outcome: Outcome)

  /** `getCollection(name)`: an injected transport fault, or 404 when absent. */
  function Probe(cols: Collections, name: string, fault: Option<Error>): (r: Outcome)
    ensures fault.None? ==> (r.Pass? <==> name in cols)
    ensures fault.None? && r.Fail? ==> IsNotFoundStatus(r.error)
  {
    if fault.Some? then Fail(fault.value)
    else if name in cols then Pass
    else Fail(CollectionMissing(name))
  }

  /** `createCollection(name, {vectors: {size, distance: "Cosine"}})` */
  function CreateStep(cols: Collections, name: string, size: nat, fault: Option<Error>): (r: Step)
    ensures r.outcome.Pass? <==> fault.None? && name !in cols
    ensures r.outcome.Fail? ==> r.cols == cols
    ensures r.outcome.Pass? ==> r.cols == cols[name := Collection(size, "Cosine", map[], map[])]
  {
    if fault.Some? then Step(cols, Fail(fault.value))
    else if name in cols then Step(cols, Fail(CollectionExists(name)))
    else Step(cols[name := Collection(size, "Cosine", map[], map[])], Pass)
  }

  /** `createPayloadIndex(name, {field_name, field_schema})`; re-creating an index is harmless. */
  function IndexStep(cols: Collections, name: string, field: string, schema: string, fault: Option<Error>): (r: Step)
    ensures r.outcome.Pass? <==> fault.None? && name in cols
    ensures r.outcome.Fail? ==> r.cols == cols
    ensures r.outcome.Pass? ==> (
      && r.cols.Keys == cols.Keys && PointsOf(r.cols, name) == PointsOf(cols, name)
      && r.cols[name].size == cols[name].size
      && r.cols[name].indexes == cols[name].indexes[field := schema]
      && forall n :: n in cols && n != name ==> r.cols[n] == cols[n])
  {
    if fault.Some? then Step(cols, Fail(fault.value))
    else if name !in cols then Step(cols, Fail(CollectionMissing(name)))
    else Step(cols[name := cols[name].(indexes := cols[name].indexes[field := schema])], Pass)
  }

  class Store {
    var collections: Collections

    constructor ()
      ensures collections == map[]
    {
      collections := map[];
    }

    method GetCollection(name: string, fault: Option<Error>) returns (r: Outcome)
      ensures r == Probe(collections, name, fault)
    {
      if fault.Some? {
        r := Fail(fault.value);
      } else if name in collections {
        r := Pass;
      } else {
        r := Fail(CollectionMissing(name));
      }
    }

    method CreateCollection(name: string, size: nat, fault: Option<Error>) returns (r: Outcome)
      modifies this
      ensures Step(collections, r) == CreateStep(old(collections), name, size, fault)
    {
      if fault.Some? {
        r := Fail(fault.value);
      } else if name in collections {
        r := Fail(CollectionExists(name));
      } else {
        collections := collections[name := Collection(size, "Cosine", map[], map[])];
        r := Pass;
      }
    }

    method CreatePayloadIndex(name: string, field: string, schema: string, fault: Option<Error>) returns (r: Outcome)
      modifies this
      ensures Step(collections, r) == IndexStep(old(collections), name, field, schema, fault)
    {
      if fault.Some? {
        r := Fail(fault.value);
      } else if name !in collections {
        r := Fail(CollectionMissing(name));
      } else {
        var c := collections[name];
        collections := collections[name := c.(indexes := c.indexes[field := schema])];
        r := Pass;
      }
    }

    /** `retrieve(name, {ids: [id]})`: the point if stored, an empty list otherwise. */
    method Retrieve(name: string, id: Value) returns (r: Result<seq<Record>>)
      ensures name !in collections ==> r == Err(CollectionMissing(name))
      ensures name in collections ==> r.Ok? && |r.value| <= 1
      ensures name in collections ==> (|r.value| == 1 <==> id in collections[name].points)
      ensures name in collections && |r.value| == 1 ==> r.value[0] == AsRecord(id, collections[name].points[id])
    {
      if name !in collections {
        r := Err(CollectionMissing(name));
      } else if id in collections[name].points {
        r := Ok([AsRecord(id, collections[name].points[id])]);
      } else {
        r := Ok([]);
      }
    }

    /** `upsert(name, {wait: true, points: [{id, vector, payload}]})`: overwrite or insert. */
    method Upsert(name: string, id: Value, vector: Vector, payload: Payload) returns (r: Outcome)
      modifies this
      ensures name !in old(collections) ==> r == Fail(CollectionMissing(name)) && collections == old(collections)
      ensures name in old(collections) ==> (r == Pass
        && collections == WithPoints(old(collections), name, old(collections)[name].points[id := Point(vector, payload)]))
    {
      if name !in collections {
        r := Fail(CollectionMissing(name));
      } else {
        collections := WithPoints(collections, name, collections[name].points[id := Point(vector, payload)]);
        r := Pass;
      }
    }

    /** `setPayload(name, {payload, points: [id]})`: merge keys into a stored payload. */
    method SetPayload(name: string, id: Value, payload: Payload) returns (r: Outcome)
      modifies this
      ensures name !in old(collections) ==> r == Fail(CollectionMissing(name)) && collections == old(collections)
      ensures name in old(collections) && id !in old(collections)[name].points ==>
        r.Fail? && IsNotFoundStatus(r.error) && collections == old(collections)
      ensures name in old(collections) && id in old(collections)[name].points ==> (r == Pass
        && var p := old(collections)[name].points[id];
           collections == WithPoints(old(collections), name,
             old(collections)[name].points[id := p.(payload := p.payload + payload)]))
    {
      if name !in collections {
        r := Fail(CollectionMissing(name));
      } else if id !in collections[name].points {
        r := Fail(StoreFault(404, "Not found: No point with id " + JsString(id) + " found"));
      } else {
        var p := collections[name].points[id];
        collections := WithPoints(collections, name, collections[name].points[id := p.(payload := p.payload + payload)]);
        r := Pass;
      }
    }

    /** `delete(name, {points: [id]})`: deleting an absent id is not an error. */
    method Delete(name: string, id: Value) returns (r: Outcome)
      modifies this
      ensures name !in old(collections) ==> r == Fail(CollectionMissing(name)) && collections == old(collections)
      ensures name in old(collections) ==> (r == Pass
        && collections == WithPoints(old(collections), name, old(collections)[name].points - {id}))
    {
      if name !in collections {
        r := Fail(CollectionMissing(name));
      } else {
        collections := WithPoints(collections, name, collections[name].points - {id});
        r := Pass;
      }
    }

    /** `scroll(name, {filter, limit, with_payload: true})`: one page of matching points,
        in an order the model leaves open. `fault` is a transport failure of the call. */
    method Scroll(name: string, filter: Option<Match>, limit: nat, fault: Option<Error>) returns (r: Result<seq<Record>>)
      ensures fault.Some? ==> r == Err(fault.value)
      ensures fault.None? && name !in collections ==> r == Err(CollectionMissing(name))
      ensures fault.None? && name in collections ==> r.Ok? && Page(r.value, collections[name].points, filter, limit)
    {
      if fault.Some? {
        return Err(fault.value);
      }
      if name !in collections {
        return Err(CollectionMissing(name));
      }
      var pts := collections[name].points;
      var remaining := pts.Keys;
      var page: seq<Record> := [];
      while remaining != {} && |page| < limit
        invariant remaining <= pts.Keys
        invariant |page| <= limit
        invariant forall i :: 0 <= i < |page| ==>
          page[i].id in pts && page[i].id !in remaining && page[i] == AsRecord(page[i].id, pts[page[i].id])
          && Matches(filter, page[i].payload)
        invariant forall i, j :: 0 <= i < j < |page| ==> page[i].id != page[j].id
        invariant forall k :: k in pts && k !in remaining && Matches(filter, pts[k].payload) ==> k in Ids(page)
        decreases remaining
      {
        var k :| k in remaining;
        remaining := remaining - {k};
        if Matches(filter, pts[k].payload) {
          assert Ids(page + [AsRecord(k, pts[k])]) == Ids(page) + [k];
          page := page + [AsRecord(k, pts[k])];
        }
      }
      r := Ok(page);
    }

    /** `search(name, {vector, limit, with_payload: true})`. Which points are nearest,
        and their scores, are the store's business: the model returns some of them. */
    method Search(name: string, vector: Vector, limit: nat) returns (r: Result<seq<Hit>>)
      ensures name !in collections ==> r == Err(CollectionMissing(name))
      ensures name in collections ==> r.Ok? && Hits(r.value, collections[name].points, limit)
    {
      var page := Scroll(name, None, limit, None);
      if page.Err? {
        return Err(page.error);
      }
      var recs := page.value;
      UnfilteredPageSize(recs, collections[name].points, limit);
      var hits: seq<Hit> := [];
      for i := 0 to |recs|
        invariant |hits| == i
        invariant forall j :: 0 <= j < i ==> hits[j].id == recs[j].id && hits[j].payload == recs[j].payload
      {
        var score: real :| -1.0 <= score <= 1.0;
        hits := hits + [Hit(recs[i].id, score, recs[i].payload)];
      }
      r := Ok(hits);
    }
  }
}
