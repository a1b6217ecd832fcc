// The `ensureCollection` routines. Every service re-implements create-if-absent
// with its own error handling; the six variants found in the services are
// stated here as functions of the collections before the call and of the
// failures the store reports, and each service's method is proved against
// its variant.

module Provisioning {
  import opened Values
  import opened Results
  import opened VectorStore

  /** Failures the store reports to the calls of one `ensureCollection`, in call order
      (None: the call answers normally). */
  datatype Faults = Faults(
    getCollection: Option<Error>,
    createCollection: Option<Error>,
    firstIndex: Option<Error>,
    secondIndex: Option<Error>)

  function NoFaults(): Faults
  {
    Faults(None, None, None, None)
  }

  /** QdrantManager: `getCollection(...).catch(() => null)` — any failure reads as absence;
      a failed creation is rethrown. */
  function Lenient(cols: Collections, name: string, size: nat, f: Faults): Step
  {
    if Probe(cols, name, f.getCollection).Pass? then Step(cols, Pass)
    else CreateStep(cols, name, size, f.createCollection)
  }

  /** Create on 404, rethrow any other probe failure; the create call's failure propagates. */
  function CreateIfMissing(cols: Collections, name: string, size: nat, f: Faults): Step
  {
    var probe := Probe(cols, name, f.getCollection);
    if probe.Pass? then Step(cols, Pass)
    else if IsNotFoundStatus(probe.error) then CreateStep(cols, name, size, f.createCollection)
    else Step(cols, probe)
  }

  /** Expenses, run-scripts, contacts, blogs, skills: no secondary index. */
  function Plain(cols: Collections, name: string, f: Faults): Step
  {
    CreateIfMissing(cols, name, EmbeddingSize, f)
  }

  /** Goals, projects, code logs, library, quick links: then an integer `userId`
      index, whose failure is only logged. */
  function Indexed(cols: Collections, name: string, f: Faults): Step
  {
    var created := CreateIfMissing(cols, name, EmbeddingSize, f);
    if created.outcome.Fail? then created
    else Step(IndexStep(created.cols, name, "userId", "integer", f.firstIndex).cols, Pass)
  }

  /** Train data: a probe failure other than 404 is swallowed too. */
  function TrainIndexed(cols: Collections, name: string, f: Faults): Step
  {
    var probe := Probe(cols, name, f.getCollection);
    var created :=
      if probe.Fail? && IsNotFoundStatus(probe.error) then CreateStep(cols, name, EmbeddingSize, f.createCollection)
      else Step(cols, Pass);
    if created.outcome.Fail? then created
    else Step(IndexStep(created.cols, name, "userId", "integer", f.firstIndex).cols, Pass)
  }

  /** About: the `userId` and `apiKey` indexes are created in one try block, so the
      second is attempted only when the first succeeded; either failure is only logged. */
  function AboutIndexed(cols: Collections, name: string, f: Faults): Step
  {
    var created := CreateIfMissing(cols, name, EmbeddingSize, f);
    if created.outcome.Fail? then created
    else
      var first := IndexStep(created.cols, name, "userId", "integer", f.firstIndex);
      if first.outcome.Fail? then Step(first.cols, Pass)
      else Step(IndexStep(first.cols, name, "apiKey", "keyword", f.secondIndex).cols, Pass)
  }

  /** Users: 4-dimensional vectors; the `email` index is created only together with the
      collection, and its failure propagates. */
  function UserEmail(cols: Collections, name: string, f: Faults): Step
  {
    var probe := Probe(cols, name, f.getCollection);
    if probe.Pass? then Step(cols, Pass)
    else if !IsNotFoundStatus(probe.error) then Step(cols, probe)
    else
      var created := CreateStep(cols, name, 4, f.createCollection);
      if created.outcome.Fail? then created
      else IndexStep(created.cols, name, "email", "keyword", f.firstIndex)
  }

  /** A store answering normally leaves `name` present, its points untouched, and
      every other collection as it was. */
  ghost predicate Provisioned(before: Collections, after: Collections, name: string)
  {
    && name in after
    && after.Keys == before.Keys + {name}
    && PointsOf(after, name) == PointsOf(before, name)
    && (forall n :: n in before && n != name ==> after[n] == before[n])
  }

  lemma LenientProvisions(cols: Collections, name: string, size: nat)
    ensures Lenient(cols, name, size, NoFaults()).outcome == Pass
    ensures Provisioned(cols, Lenient(cols, name, size, NoFaults()).cols, name)
    ensures name !in cols ==> Lenient(cols, name, size, NoFaults()).cols[name].size == size
  {
  }

  lemma PlainProvisions(cols: Collections, name: string)
    ensures Plain(cols, name, NoFaults()).outcome == Pass
    ensures Provisioned(cols, Plain(cols, name, NoFaults()).cols, name)
  {
  }

  lemma IndexedProvisions(cols: Collections, name: string)
    ensures Indexed(cols, name, NoFaults()).outcome == Pass
    ensures Provisioned(cols, Indexed(cols, name, NoFaults()).cols, name)
    ensures "userId" in Indexed(cols, name, NoFaults()).cols[name].indexes
  {
  }

  lemma TrainIndexedProvisions(cols: Collections, name: string)
    ensures TrainIndexed(cols, name, NoFaults()).outcome == Pass
    ensures Provisioned(cols, TrainIndexed(cols, name, NoFaults()).cols, name)
  {
  }

  lemma AboutIndexedProvisions(cols: Collections, name: string)
    ensures AboutIndexed(cols, name, NoFaults()).outcome == Pass
    ensures Provisioned(cols, AboutIndexed(cols, name, NoFaults()).cols, name)
    ensures "userId" in AboutIndexed(cols, name, NoFaults()).cols[name].indexes
    ensures "apiKey" in AboutIndexed(cols, name, NoFaults()).cols[name].indexes
  {
  }

  lemma UserEmailProvisions(cols: Collections, name: string)
    ensures UserEmail(cols, name, NoFaults()).outcome == Pass
    ensures Provisioned(cols, UserEmail(cols, name, NoFaults()).cols, name)
    ensures name !in cols ==>
      (UserEmail(cols, name, NoFaults()).cols[name].size == 4
       && "email" in UserEmail(cols, name, NoFaults()).cols[name].indexes)
  {
  }

  /** Create-if-absent is idempotent: a second call on a normally answering store changes nothing. */
  lemma IndexedIdempotent(cols: Collections, name: string)
    ensures var once := Indexed(cols, name, NoFaults()).cols;
      Indexed(once, name, NoFaults()).cols == once
  {
    var once := Indexed(cols, name, NoFaults()).cols;
    assert name in once && once[name].indexes["userId" := "integer"] == once[name].indexes;
  }

  lemma PlainIdempotent(cols: Collections, name: string)
    ensures var once := Plain(cols, name, NoFaults()).cols;
      Plain(once, name, NoFaults()).cols == once
  {
  }

  lemma TrainIndexedIdempotent(cols: Collections, name: string)
    ensures var once := TrainIndexed(cols, name, NoFaults()).cols;
      TrainIndexed(once, name, NoFaults()).cols == once
  {
    var once := TrainIndexed(cols, name, NoFaults()).cols;
    assert name in once && once[name].indexes["userId" := "integer"] == once[name].indexes;
  }

  lemma AboutIndexedIdempotent(cols: Collections, name: string)
    ensures var once := AboutIndexed(cols, name, NoFaults()).cols;
      AboutIndexed(once, name, NoFaults()).cols == once
  {
    var once := AboutIndexed(cols, name, NoFaults()).cols;
    var idx := once[name].indexes;
    assert idx["userId" := "integer"]["apiKey" := "keyword"] == idx;
  }

  lemma UserEmailIdempotent(cols: Collections, name: string)
    ensures var once := UserEmail(cols, name, NoFaults()).cols;
      UserEmail(once, name, NoFaults()).cols == once
  {
  }

  lemma LenientIdempotent(cols: Collections, name: string, size: nat)
    ensures var once := Lenient(cols, name, size, NoFaults()).cols;
      Lenient(once, name, size, NoFaults()).cols == once
  {
  }

  /** On an existing collection the lenient variant creates and changes nothing. */
  lemma LenientExistingUnchanged(cols: Collections, name: string, size: nat, f: Faults)
    requires name in cols && f.getCollection.None?
    ensures Lenient(cols, name, size, f) == Step(cols, Pass)
  {
  }

  /** The lenient variant reads any probe failure as absence and then creates; on an
      existing collection that creation fails, and the failure is rethrown. */
  lemma LenientProbeFailureRecreates(cols: Collections, name: string, size: nat, e: Error)
    requires name in cols
    ensures Lenient(cols, name, size, Faults(Some(e), None, None, None)) == Step(cols, Fail(CollectionExists(name)))
  {
  }

  /** The rethrowing variants pass a non-404 probe failure on and change nothing. */
  lemma IndexedRethrowsOtherProbeFailures(cols: Collections, name: string, f: Faults)
    requires f.getCollection.Some? && !IsNotFoundStatus(f.getCollection.value)
    ensures Indexed(cols, name, f) == Step(cols, Fail(f.getCollection.value))
    ensures Plain(cols, name, f) == Step(cols, Fail(f.getCollection.value))
    ensures AboutIndexed(cols, name, f) == Step(cols, Fail(f.getCollection.value))
    ensures UserEmail(cols, name, f) == Step(cols, Fail(f.getCollection.value))
  {
  }

  /** ... whereas the train variant swallows it and goes on to the index. */
  lemma TrainSwallowsOtherProbeFailures(cols: Collections, name: string, f: Faults)
    requires f.getCollection.Some? && !IsNotFoundStatus(f.getCollection.value)
    ensures TrainIndexed(cols, name, f).outcome == Pass
    ensures TrainIndexed(cols, name, f).cols == IndexStep(cols, name, "userId", "integer", f.firstIndex).cols
  {
  }

  /** Index failures never fail the indexed variants. */
  lemma IndexFailuresOnlyLogged(cols: Collections, name: string, f: Faults)
    requires f.getCollection.None? && f.createCollection.None?
    ensures Indexed(cols, name, f).outcome == Pass
    ensures TrainIndexed(cols, name, f).outcome == Pass
    ensures AboutIndexed(cols, name, f).outcome == Pass
  {
  }

  /** About: when the `userId` index fails, the `apiKey` index is never attempted. */
  lemma AboutSkipsApiKeyAfterUserIdFailure(cols: Collections, name: string, f: Faults)
    requires name in cols && f.getCollection.None? && f.firstIndex.Some?
    ensures AboutIndexed(cols, name, f) == Step(cols, Pass)
  {
  }

  /** Users: an existing collection gets no `email` index, whatever the index call would do. */
  lemma UserEmailIndexOnlyOnCreate(cols: Collections, name: string, f: Faults)
    requires name in cols && f.getCollection.None?
    ensures UserEmail(cols, name, f) == Step(cols, Pass)
  {
  }

  /** Users: a failed `email` index creation fails the call, after the collection was created. */
  lemma UserEmailIndexFailurePropagates(cols: Collections, name: string, e: Error)
    requires name !in cols
    ensures var r := UserEmail(cols, name, Faults(None, None, Some(e), None));
      r.outcome == Fail(e) && name in r.cols && r.cols[name].indexes == map[]
  {
  }
}
