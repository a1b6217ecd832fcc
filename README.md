# Personal dashboard back end: ownership-aware repositories over a vector store

This project models the service layer of a personal dashboard and
retrieval-augmented chatbot back end. Every resource is kept as points in a
vector collection: goals, projects, code logs, library entries, quick links,
training texts, "about" entries, expenses, chat users and histories,
dashboard users, scripts, contact messages, blog posts and skills. Each point
has an id, an embedding of one designated text field, and a JSON payload.

Almost every service repeats the same policy, and the copies differ in small
ways:

- `ensureCollection` creates the collection when it is missing.
- Adding a record embeds a field, stamps the caller's `userId` and upserts.
- Listing hides other users' records unless the caller's role is privileged.
- Get-by-id fails on an unknown id.
- Update and delete check that the record exists, then check ownership, then write.

The model keeps each copy's own variant. The variants are:

- how owners are compared: as strings (`String(a) !== String(b)`) or strictly (`!==`);
- which roles count as privileged;
- whether an update merges the payload, replaces it or pins the owner;
- which collection-provisioning failures are rethrown, swallowed or only logged.

On top of this shared layer the project models:

- the key-result list of a goal;
- the view log of a project;
- the field-wise update of training texts;
- the chat-user cascade delete;
- the id generator and id normaliser;
- the prompt assembly of the language-model wrapper;
- the chat endpoint, which validates a question, retrieves three neighbours, generates an answer and shapes the response.

## How the model is built

- **Values.** JavaScript values are the datatype `Values.Value`, and payloads are `map<string, Value>`.
  - `Get` reads a missing key as `undefined`.
  - `Truthy`, `||` (`Or`), `??` (`Coalesce`), `===` (`StrictEquals`), `String(x)` (`JsString`) and object spread (`Spread`, `Merge`, right-biased) follow JavaScript for these values. Spreading a string or an array gives its decimal index keys.
  - Reading a property of null or undefined is the TypeError "Cannot read properties of … (reading '…')" (`ReadFault`).
  - Numbers are integers.
- **Vector store.** The store is the class `VectorStore.Store`. It holds one field, `collections`, which maps each collection name to its size, its distance, its payload indexes and its points.
  - Its methods are the client calls the services make.
  - A data-plane call on a missing collection fails with a 404 error.
  - `scroll` may return any page of at most `limit` distinct matching points. It must return every match when there are fewer than `limit` of them.
  - `search` returns `min(limit, n)` distinct stored points of an `n`-point collection. Which points are nearest is not modelled.
- **Collection provisioning.** The provisioning variants are functions in `Provisioning`: `Lenient`, `Plain`, `Indexed`, `TrainIndexed`, `AboutIndexed` and `UserEmail`.
  - Each takes the collections before the call and the faults the store reports.
  - Each returns the collections afterwards and the outcome.
  - Every service's `EnsureCollection` is proved equal to its variant.
  - The CRUD operations run after a normally answering `EnsureCollection`, and their contracts are stated over the collections it leaves.
- **Services.** Every service is a class holding the store and its collection name. Its methods have `modifies store`. Each method states:
  - its result;
  - the whole new state of the collections, for every branch, error branches included.

  Error messages are the source's, character for character.
- **Inputs that cannot be computed.** These become parameters:
  - `Date.now()` and `Math.random()` become a `Draw` (a millisecond and a number below 1000);
  - the ISO time of a call becomes a string;
  - a bcrypt digest becomes a value;
  - the embedding provider's failure becomes a flag;
  - the chat model becomes a function from prompt to optional answer.

  Embeddings are the symbolic `Embed(text)`.

### Where the model departs from the code or from the description

Each bullet says which one the model follows.

- **Chat service store calls (intent followed).** `services/chat.service.js` calls `upsertPoint`, `scrollPoints`, `deletePoints` and a two-argument `getPoint` on its `QdrantManager`. `services/qdrant.service.js` defines none of the first three, and its `getPoint` takes only an id.
  - As written, every chat-service method except `ensureCollections` would therefore throw a TypeError or look in the wrong collection.
  - The model gives the calls the meaning their names and arguments suggest: an upsert, a scroll, a delete and a retrieve, each on the named collection.
  - `scrollPoints` is called without a limit, so it is modelled as returning every matching point.
- **`deleteUser` cascade (code followed).** `ChatService.deleteUser` lists the histories with role `superAdmin`, which means no filter. It therefore deletes every listed history, not only the user's own. `Chat.DeleteUserErasesEveryChat` states this.
- **User deletion (both modelled).** `UserService.deleteUser` calls `client.deletePoints`, which the client does not define. `Users.UserService.DeleteUserAsWritten` is the code as written: a TypeError, and nothing is removed. `Users.UserService.DeleteUser` is the intended delete, with the client's `delete`.
- **Blog and skill ids (code followed).** `services/blog.service.js` and `services/skill.service.js` import the whole export object of `utils/generateId.js` under the name `generateId`, so calling it throws a TypeError.
  - `addBlog` succeeds only when the data carries a truthy `id`.
  - `addSkill` never writes.
- **Chat controller documents (code followed).** `controllers/chat.controller.js` reads `doc.text` and `doc.timestamp` on the results of `searchSimilar`. Those results carry only `id`, `score` and `payload`.
  - The response shaping is modelled over documents that do carry a text (`ShapeDocs`).
  - The endpoint feeds it the hits as they are (`AsDoc`). So as written, any retrieved document turns the answer into a 500 (`ChatController.AnyHitFailsTheChat`).
- **Expense retrieval (intent followed).** `ExpensesService` retrieves without asking for the payload, but it then reads `payload.userId`. The model takes the retrieved point to carry its payload.

## Model

| member | source | states |
|---|---|---|
| Values.Or | services/goals.service.js:52 | `a \|\| b`: `a` when truthy, `b` otherwise |
| Values.Coalesce | services/train.service.js:124-127 | `a ?? b`: `b` exactly when `a` is null or undefined |
| Values.Merge | services/goals.service.js:127-130 | `{...a, ...b}`: keys of both, `b` wins on shared keys, `a`'s other values kept |
| Values.Entry | services/goals.service.js:102 | `{id, ...payload}`: every payload key kept, `id` added and overridden by a payload `id` |
| Values.NatToStringIsDigits | utils/generateId.js:13-14 | the decimal text of a natural number is a non-empty digit run with that value |
| Values.DecimalRoundTrip | utils/generateId.js:13-14 | `parseInt(String(n), 10) == n` for every integer |
| Values.IntToStringInjective | utils/generateId.js:13-14 | distinct integers render as distinct strings |
| Values.NonBlankStringExamples | services/train.service.js:48-50 | empty, whitespace-only (Unicode spaces and line terminators included) and non-string values fail the content check, padded text passes |
| Values.IndexKeysHold | services/goals.service.js:181 | spreading a string or array gives key `"i"` to its `i`-th element |
| Values.IndexKeysOnly | services/goals.service.js:181 | spreading a string or array gives no key other than the decimal indexes |
| Values.SpreadSequencesExamples | services/goals.service.js:181 | `{..."ab"}` is `{0: "a", 1: "b"}`, `{...[x]}` is `{0: x}`, and numbers and null spread to nothing |
| Values.LooseEqualityOnIntegers | services/goals.service.js:121 | `String(a) === String(b)` on integers is integer equality |
| Values.StrictImpliesLoose | services/goals.service.js:163 | strictly equal primitives are equal as strings |
| Values.LooseDoesNotImplyStrict | services/goals.service.js:163 | `7` and `"7"` are equal as strings but not strictly |
| Ids.GenerateId | utils/generateId.js:4-8 | the id divided by 1000 is the millisecond and the remainder is the draw |
| Ids.LaterMillisecondLargerId | utils/generateId.js:5-7 | an id from a later millisecond is larger, whatever the draws |
| Ids.IdsCollideIffSameDraw | utils/generateId.js:6-7 | two ids are equal exactly when millisecond and draw both agree |
| Ids.NormalizeId | utils/generateId.js:11-17 | a decimal string becomes its integer; every other value, strings included, is returned unchanged |
| Ids.NormalizeRoundTrip | utils/generateId.js:11-17 | an integer and its decimal text normalise to the same integer |
| Ids.GeneratedIdSurvivesUrl | utils/generateId.js:4-17 | a generated id passed through a URL parameter normalises back to itself |
| Ids.NormalizeIdempotent | utils/generateId.js:11-17 | normalising twice equals normalising once |
| VectorStore.Probe | services/qdrant.service.js:17-19 | without a fault, `getCollection` answers exactly when the collection exists and a failure is a 404 |
| VectorStore.CreateStep | services/qdrant.service.js:27-32 | creation succeeds exactly when there is no fault and no such collection, and adds an empty Cosine collection of the given size |
| VectorStore.IndexStep | services/goals.service.js:34-45 | index creation succeeds exactly on an existing collection without fault, adding only the index |
| VectorStore.Store.GetCollection | services/qdrant.service.js:17-19 | the probe's answer, nothing changed |
| VectorStore.Store.CreateCollection | services/qdrant.service.js:27-32 | the collections afterwards are those of `CreateStep` |
| VectorStore.Store.CreatePayloadIndex | services/goals.service.js:34-45 | the collections afterwards are those of `IndexStep` |
| VectorStore.Store.Retrieve | services/qdrant.service.js:140-145 | a 404 on a missing collection, else a one-element list exactly when the id is stored, holding that point |
| VectorStore.Store.Upsert | services/qdrant.service.js:52-55 | inserts or overwrites exactly the one point, or fails with 404 on a missing collection |
| VectorStore.Store.SetPayload | services/user.service.js:89-93 | merges keys into a stored payload keeping its vector; 404 on a missing collection or point |
| VectorStore.Store.Delete | services/qdrant.service.js:130-132 | removes the id if stored, succeeding either way; 404 on a missing collection |
| VectorStore.Store.Scroll | services/qdrant.service.js:118-122 | an injected fault, a 404, or one page of distinct matching stored points |
| VectorStore.Store.Search | services/qdrant.service.js:83-87 | exactly `min(limit, n)` distinct stored points of an `n`-point collection with their payloads, or a 404 |
| VectorStore.CoveredKeys | services/qdrant.service.js:83-87 | a set of keys drawn from a record list has no more keys than the list has records |
| VectorStore.UnfilteredPageSize | services/qdrant.service.js:118-122 | an unfiltered page holds exactly `min(limit, n)` records |
| Provisioning.LenientProvisions | services/qdrant.service.js:14-38 | on a normally answering store the call passes, keeps every point and creates a missing collection with the given size |
| Provisioning.PlainProvisions | services/expenses.service.js:15-33 | the call passes and leaves the collection present with its points |
| Provisioning.IndexedProvisions | services/goals.service.js:15-46 | the call passes, the collection is present and has the `userId` index |
| Provisioning.TrainIndexedProvisions | services/train.service.js:15-43 | the call passes and leaves the collection present with its points |
| Provisioning.AboutIndexedProvisions | services/about.service.js:15-51 | the call passes and both the `userId` and `apiKey` indexes exist |
| Provisioning.UserEmailProvisions | services/user.service.js:15-42 | the call passes; a created collection has size 4 and the `email` index |
| Provisioning.IndexedIdempotent | services/goals.service.js:15-46 | a second call changes nothing |
| Provisioning.PlainIdempotent | services/expenses.service.js:15-33 | a second call changes nothing |
| Provisioning.TrainIndexedIdempotent | services/train.service.js:15-43 | a second call changes nothing |
| Provisioning.AboutIndexedIdempotent | services/about.service.js:15-51 | a second call changes nothing |
| Provisioning.UserEmailIdempotent | services/user.service.js:15-42 | a second call changes nothing |
| Provisioning.LenientIdempotent | services/qdrant.service.js:14-38 | a second call changes nothing |
| Provisioning.LenientExistingUnchanged | services/qdrant.service.js:20-23 | on an existing collection nothing is created or changed |
| Provisioning.LenientProbeFailureRecreates | services/qdrant.service.js:17-37 | any probe failure reads as absence, and re-creating an existing collection fails with the create call's error |
| Provisioning.IndexedRethrowsOtherProbeFailures | services/goals.service.js:15-32 | a non-404 probe failure is rethrown with nothing changed, in the indexed, plain, about and user variants |
| Provisioning.TrainSwallowsOtherProbeFailures | services/train.service.js:19-29 | the train variant swallows a non-404 probe failure and goes on to the index |
| Provisioning.IndexFailuresOnlyLogged | services/goals.service.js:34-45 | an index failure never fails the indexed, train or about variants |
| Provisioning.AboutSkipsApiKeyAfterUserIdFailure | services/about.service.js:33-50 | a failed `userId` index means no `apiKey` index, and the call passes |
| Provisioning.UserEmailIndexOnlyOnCreate | services/user.service.js:20-36 | an existing users collection gets no `email` index |
| Provisioning.UserEmailIndexFailurePropagates | services/user.service.js:30-40 | a failed `email` index fails the call, after the collection was created |
| Ownership.Check | services/goals.service.js:115-123 | missing exactly when the id is not stored; granted exactly when stored and the caller is privileged or owns it |
| Ownership.OwnerFilter | services/goals.service.js:76-85 | no filter exactly for privileged callers, otherwise `userId` equality |
| Ownership.Stamped | services/code-log.service.js:52-57 | `{...data, userId}`: the caller's id overrides, other keys kept |
| Ownership.Entries | services/goals.service.js:89 | one `{id, ...payload}` per listed point, in order |
| Ownership.Payloads | services/contact.service.js:59-64 | one payload per listed point, in order, without ids |
| Ownership.PayloadListingShowsStoredPayloads | services/contact.service.js:56-65 | a payload listing has at most a page of entries, each a stored payload |
| Ownership.ListingIsolation | services/goals.service.js:76-89 | a filtered listing shows only records whose `userId` is the caller's |
| Ownership.ListingShowsStoredRecords | services/goals.service.js:68-90 | every listed entry is a stored record with its payload, at most a page of them |
| VectorStore.PageFitsCollection | services/goals.service.js:87-89 | a page never holds more records than the collection has points |
| Ownership.ListingCompleteWhenSmall | services/goals.service.js:68-90 | with fewer points than the page size, every matching record is listed |
| Ownership.UpdateAllowedDeleteForbidden | services/goals.service.js:121-163 | a numeric owner with the same id sent as a string may update but not delete |
| Ownership.StrictGrantImpliesLoose | services/goals.service.js:121-163 | whatever the strict check admits, the string check admits |
| Ownership.ChecksAgreeOnIntegerOwners | services/goals.service.js:121-163 | with integer owner and caller, the two checks agree |
| Ownership.MergeKeepsAccess | services/library.service.js:127-130 | merging data without `userId` leaves every later access check unchanged |
| Ownership.MergeCanReassignOwner | services/library.service.js:127-130 | merging data with another `userId` locks out the former owner and admits the new one |
| Ownership.AdminIsNotSuperAdmin | services/chat.service.js:106 | `Admin` is privileged for the shared policy but not for chat history deletion |
| Qdrant.QueryEntry | services/qdrant.service.js:108-112 | a logged question is exactly `{id, query, timestamp}` |
| Qdrant.QueryEntries | services/qdrant.service.js:108-112 | one projected entry per point, in order |
| Qdrant.QueryListingShape | services/qdrant.service.js:96-113 | at most 100 questions, each with exactly the three keys and a stored id |
| Qdrant.QdrantManager.constructor | services/qdrant.service.js:5-12 | the collection names, `user_queries` for the questions |
| Qdrant.QdrantManager.EnsureCollection | services/qdrant.service.js:14-38 | the effect and outcome are those of the lenient variant |
| Qdrant.QdrantManager.StoreEmbedding | services/qdrant.service.js:40-58 | the point is upserted with the payload plus `timestamp`, answering `{success, id}` |
| Qdrant.QdrantManager.StoreUserQuery | services/qdrant.service.js:60-78 | a fresh id in `user_queries` holding exactly `{query, timestamp}` |
| Qdrant.QdrantManager.SearchSimilar | services/qdrant.service.js:80-94 | exactly `min(limit, n)` distinct stored hits with their payloads, the store only provisioned |
| Qdrant.QdrantManager.GetUserQueries | services/qdrant.service.js:96-113 | one page of logged questions, projected |
| Qdrant.QdrantManager.GetAllTrainData | services/qdrant.service.js:115-125 | one unfiltered page of `{id, ...payload}` |
| Qdrant.QdrantManager.DeleteTrainData | services/qdrant.service.js:127-135 | removes the id without an existence check and answers `{success, id}` |
| Qdrant.QdrantManager.GetPoint | services/qdrant.service.js:137-146 | the stored point exactly when the id is stored |
| Goals.NewGoalPayload | services/goals.service.js:57 | `{...goalData, keyResults: [], userId}`: both stamps override the data |
| Goals.WithFreshId | services/goals.service.js:181 | the key result's keys plus a fresh `id` that overrides any sent one |
| Goals.FreshKeyResults | services/goals.service.js:181 | one fresh key result per input, in order |
| Goals.FreshIdsDistinct | services/goals.service.js:181 | new key results get distinct ids exactly when their draws differ |
| Goals.FindKeyResult | services/goals.service.js:190 | the first index with a strictly equal id, or -1 when there is none; the TypeError "Cannot read properties of …" when a null or undefined element comes before any match |
| Goals.WithoutKeyResult | services/goals.service.js:208 | keeps exactly the key results with another id, all of them when none matches; the TypeError of the first null or undefined element, exactly when there is one |
| Goals.WithoutKeepsOrder | services/goals.service.js:208 | filtering distributes over concatenation, so survivors keep their order, and the first failing half's error wins |
| Goals.NullKeyResultExamples | services/goals.service.js:190-208 | `[null, {id: 1}]` throws on `findIndex`; `[{id: 1}, null]` finds index 0 but throws on `filter` |
| Goals.SequenceKeyResultsSpread | services/goals.service.js:181 | a string or array key result spreads to index keys beside the fresh `id` |
| Goals.GoalsService.constructor | services/goals.service.js:6-13 | the store and collection name |
| Goals.GoalsService.EnsureCollection | services/goals.service.js:15-46 | the effect and outcome are those of the indexed variant |
| Goals.GoalsService.AddGoal | services/goals.service.js:48-66 | `goalData.id` or a fresh id; the stamped payload is upserted with the embedded title |
| Goals.GoalsService.GetGoals | services/goals.service.js:68-90 | one page, filtered by `userId` unless `superAdmin` or `Admin` |
| Goals.GoalsService.GetGoalById | services/goals.service.js:92-103 | `{id, ...payload}` of the normalised id, or "Goal with id … not found." |
| Goals.GoalsService.UpdateGoal | services/goals.service.js:105-148 | not found, then forbidden on a string owner mismatch, else merge with the title re-embedded |
| Goals.GoalsService.DeleteGoal | services/goals.service.js:150-176 | not found, then forbidden on a strict owner mismatch, else the point is removed |
| Goals.GoalsService.CreateKeyResult | services/goals.service.js:178-185 | the new key results are appended after the old ones through an owner-checked update and returned; a non-array `keyResults` throws the `push` TypeError with nothing changed |
| Goals.GoalsService.UpdateKeyResult | services/goals.service.js:187-203 | the first match merged with the first element of an array body, others unchanged; the `findIndex` TypeErrors with nothing changed |
| Goals.GoalsService.DeleteKeyResult | services/goals.service.js:205-211 | every match removed, the rest kept in order, success even with no match; the `filter` TypeErrors with nothing changed |
| Projects.NewProjectPayload | services/project.service.js:58 | `{...projectData, views: [], userId}`: both stamps override the data |
| Projects.AppendView | services/project.service.js:192-193 | missing views become one entry; an array gets exactly one `{timestamp}` appended with earlier entries unchanged; a truthy non-array throws |
| Projects.ProjectService.constructor | services/project.service.js:7-14 | the store and collection name |
| Projects.ProjectService.EnsureCollection | services/project.service.js:16-47 | the effect and outcome are those of the indexed variant |
| Projects.ProjectService.AddProject | services/project.service.js:49-67 | `projectData.id` or a fresh id; the stamped payload is upserted |
| Projects.ProjectService.GetProjects | services/project.service.js:69-94 | one filtered page, or "Failed to fetch projects" on any scroll failure |
| Projects.ProjectService.UpdateProject | services/project.service.js:98-141 | not found, then forbidden on a string owner mismatch, else merge |
| Projects.ProjectService.DeleteProject | services/project.service.js:143-172 | not found, then forbidden on a strict owner mismatch, else removal |
| Projects.ProjectService.GetProjectById | services/project.service.js:174-185 | `{id, ...payload}`, or "Project with id … not found." |
| Projects.ProjectService.IncrementViewCount | services/project.service.js:187-198 | one view appended through the owner-checked update; answers title and the new views |
| CodeLogs.CodeLogUpdate | services/code-log.service.js:147-151 | the merge, with `userId` pinned to a truthy stored owner, else the caller |
| CodeLogs.CodeLogUpdateKeepsOwner | services/code-log.service.js:147-151 | with a truthy stored owner, every access check is unchanged by an update |
| CodeLogs.CodeLogService.constructor | services/code-log.service.js:6-13 | the store and collection name |
| CodeLogs.CodeLogService.EnsureCollection | services/code-log.service.js:15-44 | the effect and outcome are those of the indexed variant |
| CodeLogs.CodeLogService.AddCodeLog | services/code-log.service.js:46-66 | `codeLogData.id` or a fresh id, stamped payload, embedded `code` |
| CodeLogs.CodeLogService.GetCodeLogs | services/code-log.service.js:68-101 | one filtered page, or the scroll's failure rethrown as is |
| CodeLogs.CodeLogService.GetCodeLogById | services/code-log.service.js:103-114 | `{id, ...payload}`, or "CodeLog with id … not found." |
| CodeLogs.CodeLogService.UpdateCodeLog | services/code-log.service.js:116-169 | not found, then forbidden on a string owner mismatch, else the owner-pinning merge |
| CodeLogs.CodeLogService.DeleteCodeLog | services/code-log.service.js:171-201 | not found, then forbidden on a strict owner mismatch, else removal |
| Library.LibraryService.constructor | services/library.service.js:6-13 | the store and collection name |
| Library.LibraryService.EnsureCollection | services/library.service.js:15-46 | the effect and outcome are those of the indexed variant |
| Library.LibraryService.AddLibrary | services/library.service.js:48-66 | `libraryData.id` or a fresh id; the stamped owner overrides the data's |
| Library.LibraryService.GetLibraries | services/library.service.js:68-90 | one page, filtered unless privileged |
| Library.LibraryService.GetLibraryById | services/library.service.js:92-103 | `{id, ...payload}`, or "Library with id … not found." |
| Library.LibraryService.UpdateLibrary | services/library.service.js:105-148 | not found, then forbidden on a string owner mismatch, else a plain merge that may replace `userId` |
| Library.LibraryService.DeleteLibrary | services/library.service.js:150-176 | not found, then forbidden on a strict owner mismatch, else removal |
| QuickLinks.QuickLinkService.constructor | services/quicklink.service.js:6-13 | the store and collection name |
| QuickLinks.QuickLinkService.EnsureCollection | services/quicklink.service.js:15-46 | the effect and outcome are those of the indexed variant |
| QuickLinks.QuickLinkService.AddQuickLink | services/quicklink.service.js:48-66 | `linkData.id` or a fresh id, stamped payload |
| QuickLinks.QuickLinkService.GetQuickLinks | services/quicklink.service.js:68-90 | one page, filtered unless privileged |
| QuickLinks.QuickLinkService.GetQuickLinkById | services/quicklink.service.js:92-103 | `{id, ...payload}`, or "Quick Link with id … not found." |
| QuickLinks.QuickLinkService.UpdateQuickLink | services/quicklink.service.js:105-148 | not found, then forbidden on a string owner mismatch, else merge |
| QuickLinks.QuickLinkService.DeleteQuickLink | services/quicklink.service.js:150-176 | not found, then forbidden on a strict owner mismatch, else removal |
| Train.NewTrainPayload | services/train.service.js:58-65 | exactly the four fields, `timestamp` and `userId`; other input fields dropped |
| Train.TrainUpdate | services/train.service.js:122-128 | each of the four fields is the new value unless null or undefined; every other stored key kept |
| Train.TrainUpdateKeepsOwner | services/train.service.js:122-128 | an update never changes who may access the record |
| Train.TrainUpdateIdempotent | services/train.service.js:122-128 | applying the same update twice equals applying it once |
| Train.EmptyTrainUpdateKeepsValues | services/train.service.js:122-128 | an update without the four fields keeps every stored value |
| Train.UnchangedContentKeepsVector | services/train.service.js:117-120 | resending the stored content, or none, keeps the stored vector |
| Train.TrainService.constructor | services/train.service.js:6-13 | the store and collection name |
| Train.TrainService.EnsureCollection | services/train.service.js:15-43 | the effect and outcome are those of the train variant |
| Train.TrainService.AddTrainData | services/train.service.js:45-74 | rejects blank or non-string content unchanged; fails on a missing collection; else stores and answers id, content length and embedding size |
| Train.TrainService.GetAllTrainData | services/train.service.js:76-99 | one page, filtered unless privileged |
| Train.TrainService.GetPoint | services/train.service.js:164-172 | the stored record exactly when the id is stored |
| Train.TrainService.UpdateTrainData | services/train.service.js:101-142 | "Data point not found", then forbidden on a string owner mismatch, else the field-wise update with conditional re-embedding |
| Train.TrainService.DeleteTrainData | services/train.service.js:144-162 | the same two checks, then removal |
| About.AboutService.constructor | services/about.service.js:6-13 | the store and collection name |
| About.AboutService.EnsureCollection | services/about.service.js:15-51 | the effect and outcome are those of the about variant |
| About.AboutService.AddAbout | services/about.service.js:53-73 | always a fresh id, stamped payload, embedded `description` |
| About.AboutService.GetAbout | services/about.service.js:75-100 | one page, filtered unless privileged |
| About.AboutService.UpdateAbout | services/about.service.js:102-151 | not found, then forbidden on a string owner mismatch, else merge |
| About.AboutService.DeleteAbout | services/about.service.js:153-185 | not found with the raw id, then forbidden on a strict owner mismatch, else removal |
| Expenses.ExpensesService.constructor | services/expenses.service.js:6-13 | the store and collection name |
| Expenses.ExpensesService.EnsureCollection | services/expenses.service.js:15-33 | the effect and outcome are those of the plain variant |
| Expenses.ExpensesService.AddExpense | services/expenses.service.js:35-53 | `expenseData.id` or a fresh id, stamped payload |
| Expenses.ExpensesService.GetExpenses | services/expenses.service.js:55-77 | one page, filtered unless privileged |
| Expenses.ExpensesService.GetExpenseById | services/expenses.service.js:79-90 | `{id, ...payload}`, or "Expense with id … not found." |
| Expenses.ExpensesService.UpdateExpense | services/expenses.service.js:92-127 | not found, then forbidden on a strict owner mismatch, else the payload replaced wholesale |
| Expenses.ExpensesService.DeleteExpense | services/expenses.service.js:129-155 | not found, then forbidden on a strict owner mismatch, else removal |
| Expenses.ExpenseUpdateOrphansRecord | services/expenses.service.js:111-115 | after an update without `userId`, a non-privileged former owner is denied |
| Chat.UserPayload | services/chat.service.js:18-24 | exactly `{fullName, email}` |
| Chat.HistoryPayload | services/chat.service.js:27-36 | exactly `{userId, fullName, email, title, messages}` |
| Chat.HistoryFilter | services/chat.service.js:53-62 | no filter exactly for `superAdmin` |
| Chat.AdminSeesOnlyOwnHistories | services/chat.service.js:53-62 | an `Admin` listing shows only the caller's histories |
| Chat.FullListingComplete | services/chat.service.js:46-66 | an unlimited scroll lists every matching history |
| Chat.FullListingIds | services/chat.service.js:121-124 | the ids read off an unfiltered full listing are exactly the collection's listed ids |
| Chat.EntryIdsExtend | services/chat.service.js:122-124 | one more listed chat adds its `chat.id` |
| Chat.ListedIdsArePointIds | services/chat.service.js:121-124 | without payload `id` keys, the listed ids are the point ids |
| Chat.ChatReadyProvisions | services/chat.service.js:12-15 | both collections exist afterwards with their points kept, and re-ensuring changes nothing |
| Chat.ChatService.constructor | services/chat.service.js:5-9 | the manager the service works through |
| Chat.ChatService.EnsureCollections | services/chat.service.js:12-15 | users then histories, each lenient |
| Chat.ChatService.SaveUser | services/chat.service.js:18-24 | a fresh id holding exactly `{fullName, email}`, answered as `{id, payload}` |
| Chat.ChatService.SaveChatHistory | services/chat.service.js:27-36 | a fresh id holding exactly the five history fields |
| Chat.ChatService.GetUsers | services/chat.service.js:39-43 | every chat user as `{id, ...payload}` |
| Chat.ChatService.GetChatHistories | services/chat.service.js:46-66 | every history for `superAdmin`, the caller's otherwise |
| Chat.ChatService.GetChatHistoryByUserIdAndChatId | services/chat.service.js:69-76 | the chat exactly when it exists and its owner equals the caller as a string |
| Chat.ChatService.UpdateChatHistory | services/chat.service.js:79-96 | not found, then forbidden unless owner, `superAdmin` or `Admin`, else merge stored without a vector |
| Chat.ChatService.DeleteChatHistory | services/chat.service.js:99-112 | not found, then forbidden unless owner or `superAdmin`, else removal |
| Chat.ChatService.DeleteListed | services/chat.service.js:121-124 | exactly the listed chats' ids are removed, other collections unchanged |
| Chat.ChatService.DeleteUser | services/chat.service.js:115-135 | every listed history and the user point removed, nothing else |
| Chat.DeleteUserErasesEveryChat | services/chat.service.js:118-124 | without payload `id` keys, the cascade empties the history collection |
| Users.UserVectorFitsCollection | services/user.service.js:24-51 | the placeholder vector's dimension equals the created collection's size |
| Users.UserUpdatePayload | services/user.service.js:81-88 | exactly the truthy fields among email, role and password, the password hashed |
| Users.FalsyUpdateChangesNothing | services/user.service.js:81-93 | an update with only falsy fields leaves the account unchanged |
| Users.UpdateStoresHashedPassword | services/user.service.js:85-93 | a truthy password is stored hashed |
| Users.UserService.constructor | services/user.service.js:7-13 | the store |
| Users.UserService.EnsureCollection | services/user.service.js:15-42 | the effect and outcome are those of the user variant |
| Users.UserService.CreateUser | services/user.service.js:44-59 | a fresh id holding the hashed account, answering `{id, email, role}` without the password |
| Users.UserService.GetUsers | services/user.service.js:61-67 | one unfiltered page, or a 404 on a missing collection |
| Users.UserService.GetUserById | services/user.service.js:69-78 | `{id, ...payload}` exactly when stored, null otherwise |
| Users.UserService.UpdateUser | services/user.service.js:80-96 | the truthy fields merged in and `{id, ...updates}` echoed, or a 404 with nothing changed |
| Users.UserService.DeleteUser | services/user.service.js:98-104 | as intended: the point removed and `{id}` answered whether or not it existed |
| Users.UserService.DeleteUserAsWritten | services/user.service.js:98-104 | as written: the TypeError "this.client.deletePoints is not a function", nothing removed |
| RunScripts.RunScriptService.constructor | services/runscript.service.js:7-14 | the store and collection name |
| RunScripts.RunScriptService.EnsureCollection | services/runscript.service.js:16-34 | the effect and outcome are those of the plain variant |
| RunScripts.RunScriptService.AddScript | services/runscript.service.js:36-54 | `scriptData.id` or a fresh id, payload verbatim with no owner |
| RunScripts.RunScriptService.GetScripts | services/runscript.service.js:56-65 | one unfiltered page |
| RunScripts.RunScriptService.GetScriptById | services/runscript.service.js:67-78 | `{id, ...payload}`, or "Script with id … not found." |
| RunScripts.RunScriptService.UpdateScript | services/runscript.service.js:80-103 | no existence check: the point is written wholesale, created if absent |
| RunScripts.RunScriptService.DeleteScript | services/runscript.service.js:105-127 | not found on an absent point, else removal |
| Contacts.ContactService.constructor | services/contact.service.js:6-13 | the store and collection name |
| Contacts.ContactService.EnsureCollection | services/contact.service.js:15-33 | the effect and outcome are those of the plain variant |
| Contacts.ContactService.AddContact | services/contact.service.js:35-55 | always a fresh id, payload verbatim, embedded `message` |
| Contacts.ContactService.GetContact | services/contact.service.js:56-65 | one unfiltered page of payloads without ids |
| Blogs.BlogService.constructor | services/blog.service.js:6-13 | the store and collection name |
| Blogs.BlogService.EnsureCollection | services/blog.service.js:15-33 | the effect and outcome are those of the plain variant |
| Blogs.BlogService.AddBlog | services/blog.service.js:35-53 | stored verbatim under a truthy `blogData.id`; otherwise the id call throws and nothing is written |
| Blogs.BlogService.GetBlogs | services/blog.service.js:55-64 | one unfiltered page of payloads |
| Skills.SkillNames | services/skill.service.js:38 | the names in array order, failing exactly when some skill is null or undefined |
| Skills.SkillText | services/skill.service.js:38-39 | `title: names joined by ", "`, or the TypeError for missing or non-array skills |
| Skills.SkillTextExamples | services/skill.service.js:38-39 | the title, ": " and the names joined by ", " in array order |
| Skills.SkillTextMissingNames | services/skill.service.js:38-39 | a missing title renders "undefined" and a skill without a name leaves an empty slot |
| Skills.SkillTextEmptyList | services/skill.service.js:38-39 | an empty skill list leaves the title and ": " |
| Skills.SkillTextFailures | services/skill.service.js:38 | a null skill or a non-array `skills` makes the text fail |
| Skills.SkillService.constructor | services/skill.service.js:6-13 | the store and collection name |
| Skills.SkillService.EnsureCollection | services/skill.service.js:15-33 | the effect and outcome are those of the plain variant |
| Skills.SkillService.AddSkill | services/skill.service.js:35-55 | always a TypeError, from the text or from the id call; nothing is written |
| Skills.SkillService.GetSkills | services/skill.service.js:57-66 | one unfiltered page of payloads |
| Gemini.GenerateEmbedding | services/gemini.service.js:10-18 | the embedding of the text, or exactly "Failed to generate embedding" when the provider fails |
| Gemini.NearestTenths | services/gemini.service.js:34 | the nearest number of tenths, ties rounding up |
| Gemini.Fixed1Examples | services/gemini.service.js:34 | `toFixed(1)` renders 50 as "50.0", 87.25 as "87.3" and -0.04 as "-0.0" |
| Gemini.LinesInOrder | services/gemini.service.js:33-35 | the line of hit `i` follows the lines of the hits before it |
| Gemini.LinesStep | services/gemini.service.js:33-35 | one more hit appends exactly its line |
| Gemini.PromptListsEveryHit | services/gemini.service.js:31-36 | the question, the context header, the lines of the earlier hits and then each hit's numbered line start the prompt |
| Gemini.PromptAsksTheQuestion | services/gemini.service.js:22-29 | every prompt starts with the instructions and the question |
| Gemini.BuildPrompt | services/gemini.service.js:22-39 | the `+=` loop builds exactly the prompt text: context header, numbered lines and closing, or the no-context note |
| Gemini.GenerateResponse | services/gemini.service.js:20-47 | the model's answer to that prompt, or exactly "Failed to generate response" when it fails |
| ChatController.Preview | controllers/chat.controller.js:53 | the text itself up to 150 characters, else its first 150 characters plus "..." |
| ChatController.PreviewStartsWithText | controllers/chat.controller.js:53 | a preview starts with the text's own first characters |
| ChatController.Round2 | controllers/chat.controller.js:52 | a whole number of hundredths within half a hundredth of the score |
| ChatController.ShapeDoc | controllers/chat.controller.js:51-54 | succeeds exactly when the text is a string, keeping id and timestamp with preview and rounded score |
| ChatController.ShapeDocs | controllers/chat.controller.js:50-55 | one entry per document in order, or the error of the first document without a string text |
| ChatController.AsDocs | controllers/chat.controller.js:38-50 | one document per hit, in order |
| ChatController.AnswerWithoutHits | controllers/chat.controller.js:44-62 | with no hits the answer is reported with empty context and the three lengths |
| ChatController.AnyHitFailsTheChat | controllers/chat.controller.js:53-70 | as written, any hit makes the shaping throw and the endpoint answer 500 |
| ChatController.StoredDataFailsTheChat | controllers/chat.controller.js:38-70 | as written, a successful answer over a non-empty collection is the 500 "Cannot read properties of undefined (reading 'substring')" |
| ChatController.DocsWithTextAreReported | controllers/chat.controller.js:49-55 | documents with text are all reported, one for one, in order |
| ChatController.Chat | controllers/chat.controller.js:4-72 | 500 on missing environment, 400 on a missing or blank query, 500 on embedding failure with nothing changed; else a search for 3 neighbours and the answer over them |

## Left out

- HTTP plumbing (routes, Swagger, the server) and every controller except the chat endpoint are not part of this model. Authentication, payments, Stripe and statistics are not part of it either.
- `RunScriptService.runScript` runs a shell command through `child_process.exec` and is not modelled.
- Floating point: scores are exact reals.
  - `toFixed(1)` and `Math.round` are modelled over reals, so binary rounding of values such as 0.15 is not captured.
  - `Math.random()` is the `Draw`'s number below 1000.
- Clock readings (`Date.now()`, `new Date()`) are parameters; their values are not modelled.
- bcrypt is a parameter holding the digest, and embeddings are symbolic (`Embed`). Nearest-neighbour ranking is not modelled: a search returns any `min(limit, n)` stored points.
- Provider failures inside the services' own embedding calls are not modelled. Only the chat endpoint models an embedding failure.
- Faults of the vector store are modelled only in collection provisioning and in the scrolls of projects and code logs. Elsewhere a data-plane call fails only on a missing collection.
- Qdrant's id-format validation (unsigned integers or UUIDs) and its vector-dimension checks are not modelled.
- Concurrency is not modelled: racing `ensureCollection` calls and interleaved upserts. Console logging and the `wait: true` durability flag are left out too.
- JSON serialisation is not modelled: keys holding `undefined` are kept in payloads rather than dropped.
- String lengths are counted in characters, not UTF-16 code units.
- `Ids.NormalizeId`: the numeric-coercion corners of `isNaN` and `parseInt` are left out. Only optionally signed digit runs are converted. Every other string is returned unchanged, although JavaScript converts some of them: `"5.5"` becomes 5, `"+7"` becomes 7, `"1e3"` becomes 1, `"0x10"` becomes 0, and `""`, blank strings and `"Infinity"` become NaN.
- `Qdrant.QdrantManager.SearchSimilar`: states which stored points may be returned but not their scores, which come from the store's ranking.
- `ChatController.Chat`: the successful branch is stated through the answer over some valid search result, since which neighbours are nearest is not modelled.
