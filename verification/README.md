# A verified model of DataGround's reference server and its protocols

DataGround runs agent services inside isolation domains. This project models, in Dafny, the parts of it whose
promises no single function keeps on its own, and proves those promises for every run.

- **The reference API server.** `ReferenceServer.Server` is the server object with its maps, updated in place by one
  handler per request. Each handler is proved to do exactly what a state function of `Handlers` says, so that whole
  runs can be reasoned about as values: `Runs.Exec` is the state after any sequence of requests. On top of that come
  the invariants of every reachable state (`Invariants`, `Runs`, `Vetting`), the lifecycle of aliases, revisions, invocations and
  journals (`Lifecycle`, `Journal`, `Replies`), when each command takes effect and why others are refused (`Commands`,
  `Refusals`), what an invocation is after its scenario ran (`Playback`), idempotent retries (`Retries`), alias versions as compare-and-swap
  (`AliasHistory`), and the independence of isolation domains for writes (`Isolation`) and reads (`ReadIsolation`).
- **Listings and replay.** `Listings` says once what a page is and proves the three ways the server writes a listing
  against it; `Joins` says what the listing loops collect; `Views` says which rows each endpoint pages through and that
  paging a running server is exact; `Visibility` says that what a reply reported is listed from then on;
  `EventReplay` and `ReplaySessions` do the same for bounded and unlimited replay of journals as server-sent events.
- **Artifact finalization and audit transport.** `FinalizationProtocol` is the protocol as interleaved processes over
  an object store and a catalog, with lost acknowledgements and crashes; `ArtifactStore` is the program, proved to take
  only steps of the protocol. `TransportProtocol` and `AuditTransport` are the same pair for encrypted audit packages.
- **The bounded restart supervisor** (`Supervisor`), **two JSON validators** (`JsonTrees`, `ConfigurationJson`,
  `KeysetJson`) and **strict local runtime acceptance** (`RuntimeAcceptance`).

`dafny verify dfyconfig.toml` verifies all of it.

## What is taken from outside

- A request carries its clock reading and the identifiers drawn for it. Drawn identifiers contain no slash and are
  unused in the domain when the request arrives (`Runs.FreshRun`). For `Identities.RowsStayDistinct` only: an artifact
  identifier, derived from a digest, tells invocations apart (`Identities.Derives`), and no drawn identifier is a
  derived one (`Identities.Draws`).
- Routing, strict decoding, hashing, text rules, capabilities, schema validation and fixtures are arbitrary
  functions (`Requests.Platform`). Responses always encode. A request line contains no space in its method or path.
- For `Retries.RepeatIsRecognized` only: hashes do not collide and contain no zero byte, and principal kinds and
  identifiers contain no separator (`Retries.CollisionFree`, `Retries.PlainPrincipal`).
- Content digests are an arbitrary function. Cursors and journals are values: their base64 and JSON codecs are taken
  to round-trip, and an encoded event contains no line break.
- The object store creates under a free key only. The catalog binds a record under a free name, returns an equal one,
  and refuses a different one. Failed calls may have taken effect or not.
- The supervisor's surroundings are arbitrary functions of everything that has happened (`Supervisor.Environment`).
  Killing a child makes its exit arrive, and a deadline fires after finitely many polls.

One promise turned out to hold only under a condition. Deleting every request that repeats an earlier method, path and
key does not always leave the final state unchanged, because a request refused before the idempotency cache does not
claim its slot: `Retries.RefusalClaimsNothing` is a run where it fails, and `Retries.LiteralErasureIff` says exactly
when it holds. Deleting the repeats of claimed slots is always invisible (`Retries.RetriesLeaveNoTrace`).

## Model

| member | source | states |
|---|---|---|
| `ReferenceRuntime.Normalize` | internal/reference/runtime.go:153-187 | Returns the one normal form of a delivery, or nothing exactly when no normal form exists: every field present, duplicates of a key identical, sequences exactly 1..n |
| `ReferenceRuntime.NormalFormUnique` | internal/reference/runtime.go:172-187 | A delivery has at most one normal form |
| `ReferenceRuntime.DeliveryOrderIrrelevant` | internal/reference/runtime.go:153-187 | Order and repetition of deliveries do not matter: the same set of events normalizes to the same journal |
| `Sorting.SortSlice` | internal/api/server.go:258-263 | The result is a permutation of the input in which no later element is less than an earlier one |
| `Journal.SourcedExtends` | internal/api/server.go:671-688 | Appending an event to a journal that reproduces a record, and applying it to the record, keeps the two in step |
| `Journal.LastEventDecides` | internal/api/server.go:966-994 | What a replayed journal says about state, result, error, usage and completion time is what the last event touching that aspect says; an aspect no event touches keeps its start |
| `Resources.ResourceKeySplits` | internal/api/server.go:1039-1041 | A resource key determines its domain and its identifier, whatever the identifier contains |
| `Resources.NestedKeyInjective` | internal/api/server.go:1043-1049 | Alias and artifact keys determine all three of their parts once the middle one has no slash |
| `Requests.SlotInjective` | internal/api/server.go:926-926 | Two requests share an idempotency slot exactly when method, path and key agree |
| `ReferenceServer.Server.constructor` | internal/api/server.go:81-96 | A new server is the empty state, which satisfies every invariant |
| `ReferenceServer.DuplicateString` | internal/api/server.go:1092-1101 | Reports exactly whether some string occurs twice |
| `ReferenceServer.AcceptCapabilities` | internal/api/server.go:416-423 | Accepts exactly the capability lists without repetition whose names are neither blank nor too long |
| `ReferenceServer.Server.CreateWorkspace` | internal/api/workspace.go:23-44 | New state and reply are those of the workspace step; only the workspace map may change |
| `ReferenceServer.Server.CreateAgentService` | internal/api/server.go:295-332 | New state and reply are those of the service step; only the service map may change |
| `ReferenceServer.Server.CreateServiceRevision` | internal/api/server.go:399-441 | New state and reply are those of the revision step; only the revision map and counters may change |
| `ReferenceServer.Server.PublishServiceRevision` | internal/api/server.go:443-487 | New state and reply are those of the publication step, with the capability scan as an existential |
| `ReferenceServer.Server.IsRouted` | internal/api/revision_retirement.go:54-58 | The alias scan answers exactly whether an alias of the domain that is not withdrawn routes to the revision |
| `ReferenceServer.Server.IsActive` | internal/api/revision_retirement.go:59-63 | The invocation scan answers exactly whether an unfinished invocation of the revision exists in the domain |
| `ReferenceServer.Server.RetireServiceRevision` | internal/api/revision_retirement.go:29-71 | New state and reply are those of the retirement step, guards in the order of the code |
| `ReferenceServer.Server.AssignServiceAlias` | internal/api/server.go:489-546 | New state and reply are those of the assignment step, including re-assignment after withdrawal |
| `ReferenceServer.Server.WithdrawServiceAlias` | internal/api/alias_withdrawal.go:24-51 | New state and reply are those of the withdrawal step |
| `ReferenceServer.Server.AppendEvent` | internal/api/server.go:654-688 | One turn of the journal loop: judge the result, store an artifact, append the event, apply it |
| `ReferenceServer.Server.RunEvents` | internal/api/server.go:652-689 | The journal loop builds exactly the draft of the event list and stores exactly the artifacts of that draft |
| `ReferenceServer.Server.PrepareRun` | internal/api/server.go:604-639 | Refuses exactly as the code does before a run, and otherwise yields the normal form of the scenario |
| `ReferenceServer.Server.InvokeAgentService` | internal/api/server.go:579-714 | New state and reply are those of the invocation step: record, journal, operation and artifacts together; what that step stores is stated from the delivered events by Playback.ScenariosArePlayed |
| `ReferenceServer.Server.CancelInvocation` | internal/api/server.go:750-809 | New state and reply are those of the cancellation step: record, operation and journal together |
| `ReferenceServer.Server.SavedResourceTarget` | internal/api/saved_resource.go:121-167 | Finds a target exactly when one exists with every record its projection joins, whatever dangles, and the projection describes it; among several artifacts of one identifier any may be found |
| `ReferenceServer.Server.SetSavedResource` | internal/api/saved_resource.go:82-104 | New state and reply are those of the saved-resource step; saying the same again keeps the original instant; only a dangling artifact of the same identifier may hide one that resolves |
| `ReferenceServer.Server.Mutate` | internal/api/server.go:899-947 | One request is exactly admission, idempotency cache, then handler; every invariant still holds and states only evolve; which requests count as the same is stated by Retries.RepeatIsRecognized |
| `Runs.MutateKeeps` | internal/api/server.go:899-947 | Every request keeps all invariants and only lets the state evolve |
| `Runs.ReachableStatesHold` | internal/api/server.go:899-947 | Every state reachable from the empty server satisfies all invariants |
| `Runs.RunEvolves` | internal/api/server.go:899-947 | Between any two moments of a run nothing disappears, stages only advance, finished invocations and their journals never change |
| `Lifecycle.AliasesAlwaysResolve` | internal/api/server.go:596-603 | After any run an alias resolves exactly when it exists and is not withdrawn, to a published revision of its service: the missing-revision branch is dead |
| `Lifecycle.RetirementIsFinal` | internal/api/revision_retirement.go:48-68 | Once retired, a revision and the set of its invocations are fixed for the rest of the run, and all of them are finished |
| `Lifecycle.StagesOnlyAdvance` | internal/api/server.go:458-484 | Between any two moments a revision keeps its identity, number and content and only moves forward, its version being 1, 2 or 3 by stage |
| `Lifecycle.OneStageAtATime` | internal/api/revision_retirement.go:48-68 | One request moves a revision by at most one stage: draft, published, retired |
| `Lifecycle.JournalsReproduceInvocations` | internal/api/server.go:641-711 | After any run folding the stored journal reproduces the invocation, its error too unless that is the error of a result the output schema refused; the journal is numbered 1..n and the paired operation observes the same state |
| `Lifecycle.JournalsOnlyGrow` | internal/api/server.go:765-806 | A stored journal is only appended to, and not at all once its invocation is finished |
| `Lifecycle.ReferencesResolve` | internal/api/saved_resource.go:251-259 | After any run artifacts lead to invocations, invocations to services, and every saved reference to its target |
| `Lifecycle.RevisionNumbersAreConsecutive` | internal/api/server.go:425-438 | After any run the revision numbers of a service are exactly 1..count, each used once |
| `Replies.RepliesShowWhatIsStored` | internal/api/server.go:939-946 | In every run the record in a reply that is not a repeat is the one stored under that record's own key right after it |
| `Visibility.RepliesStayVisible` | internal/api/server.go:252-281 | Read your writes: in any run the workspace, service, revision or invocation in a reply that is no repeat is in every listing and search it belongs to, at every later moment |
| `Vetting.OnlyVettedIsStored` | internal/api/server.go:455-484 | After any run services name existing workspaces, every revision ever published is one the runtime supports with valid schemas, and every invocation conforms to the schemas of its revision |
| `Vetting.BuildConforms` | internal/api/server.go:653-665 | The result of a run, if it has one, satisfies the output schema, whatever the events: a success the schema refuses becomes a failure |
| `Playback.ScenariosArePlayed` | internal/api/server.go:640-711 | In any run an invocation first answered 202 has in its journal exactly the delivered events of its scenario, each at the place its sequence names, a success the output schema refuses as a failure; state, result, error, usage and completion are each decided by the concerned event of highest sequence; its artifacts are stored and listed; its operation has seen it; and the reply is its record |
| `Commands.PublishesIff` | internal/api/server.go:443-487 | A publication takes effect exactly when it names version 1 of a draft the reference runtime supports |
| `Commands.RetiresIff` | internal/api/revision_retirement.go:29-71 | A retirement takes effect exactly when it names version 2 of a published revision to which no alias that is not withdrawn routes and whose invocations are finished |
| `Commands.AssignsIff` | internal/api/server.go:489-546 | After any run an assignment takes effect exactly when it names a published revision of the service and how often the alias has been changed, nothing or zero where it is new or withdrawn |
| `Commands.WithdrawsIff` | internal/api/alias_withdrawal.go:24-51 | After any run a withdrawal takes effect exactly when the alias is there, not withdrawn, and the request names how often it has been changed |
| `Commands.InvokesIff` | internal/api/server.go:579-639 | Under the routing invariants an invocation starts exactly when service and alias are there, the alias is not withdrawn, and the input fits the schema and asks for a deliverable scenario |
| `Commands.CancelsIff` | internal/api/server.go:750-809 | A cancellation is granted exactly to invocations that have not succeeded or failed; unless already cancelled they go one version up, with one more journal entry by the sender and an operation that has seen it |
| `Commands.CreationsStoreInput` | internal/api/server.go:295-441 | What a creation stores is what its request said, under the drawn identifier, at its first version |
| `Commands.SavesIff` | internal/api/saved_resource.go:82-104 | A reference is saved exactly when its target is there, and forgotten without looking; saying the same again changes nothing, saying the opposite takes the new instant |
| `Refusals.RefusalsTellTheTruth` | internal/api/server.go:899-947 | A request that is no repeat is let in exactly when nothing speaks against it at the door; whether turned away there or refused by its handler, the reason given holds of the state, has its status, and nothing has changed |
| `Isolation.MutateLocal` | internal/api/server.go:926-946 | A request has the same reply and the same effect on its domain alone, scans and cached replies included |
| `Isolation.MutateElsewhere` | internal/api/server.go:1039-1049 | A request leaves every other domain's part of the state as it was |
| `Isolation.DomainsAreIndependent` | internal/api/revision_retirement.go:54-63 | For every run and domain, the domain's part of the final state and its replies are those of a server that served only that domain's requests |
| `ReadIsolation.RowsLocal` | internal/api/resource_search.go:116-155 | Every listing of a domain, joins and search included, has the same rows on the whole state and on the domain's part of it |
| `ReadIsolation.ReadsAreIndependent` | internal/api/server.go:833-876 | After any run every listing of a domain has the rows, and every replay the journal, that they have on a server that served only that domain's requests |
| `Retries.OnlyFirstRuns` | internal/api/server.go:926-947 | A request changes the state exactly when it is admitted and its slot is new; stored replies are never replaced |
| `Retries.CacheHoldsClaims` | internal/api/server.go:930-945 | After any run the cache holds exactly the slots some admitted request claimed |
| `Retries.RetriesLeaveNoTrace` | internal/api/server.go:926-947 | Deleting from any run every request whose slot an earlier request claimed leaves the final state unchanged |
| `Retries.StoredReplyIsFirstReply` | internal/api/server.go:930-946 | The stored digest and reply of a slot are, for the rest of the run, those of its first admitted request |
| `Retries.RepeatGetsStoredReply` | internal/api/server.go:930-937 | An admitted repeat gets the first reply again when the digest agrees, a conflict when it does not, and changes nothing |
| `Retries.RepeatIsRecognized` | internal/api/server.go:925-937 | Where hashes do not collide, an admitted request whose slot is claimed gets the first reply exactly when its body and its sender are those of the first, the whole principal for saved resources, and is told that its key was reused otherwise; nothing changes |
| `Retries.DigestTellsApart` | internal/api/authentication.go:300-308 | Under the zero-byte separation two requests of one route share a digest exactly when body and sender agree |
| `Retries.TracelessIff` | internal/api/server.go:899-937 | A request of a run leaves no trace exactly when it was refused at the door or its slot had been claimed |
| `Retries.LiteralErasureIff` | internal/api/server.go:899-947 | Deleting every repeat of an earlier method, path and key, refused ones counting as earlier, preserves the final state exactly when no request is let in after all earlier ones of its slot were refused |
| `Retries.RefusalClaimsNothing` | internal/api/server.go:909-937 | A family of runs where that deletion does change the final state: a refusal for the media type does not claim the slot, so the deleted resend was the one that took effect |
| `AliasHistory.MutateSpendsOneVersion` | internal/api/server.go:515-545 | A request that changes an alias moves version and generation up by one, and if it names a positive version, that was the current one |
| `AliasHistory.VersionCountsChanges` | internal/api/alias_withdrawal.go:35-49 | After any run the version and the generation of an alias both equal the number of its effective changes |
| `AliasHistory.EachVersionSpentOnce` | internal/api/server.go:515-545 | For one alias and one positive version at most one request of a whole run takes effect, across withdrawal and re-assignment |
| `AliasHistory.LastAssignmentRoutes` | internal/api/server.go:515-545 | After any run an alias routes to the revision named by the last assignment that took effect, and is withdrawn exactly when the last change of it was a withdrawal |
| `Listings.PageUnique` | internal/api/server.go:258-293 | Rows, cursor and limit determine the page, so the differently written listings agree |
| `Listings.TiedIsPage` | internal/api/server.go:258-293 | Where no two rows share a stamp, a page that is exact up to ties is the page |
| `Listings.AfterCursor` | internal/api/server.go:284-293 | The suffix from the first row below the cursor is exactly the rows below the cursor, in order |
| `Listings.PageBySuffix` | internal/api/server.go:258-281 | Sort, drop to the cursor, truncate: exactly the newest rows below the cursor, and whether any remain |
| `Listings.PageByFilter` | internal/api/invocation_listing.go:120-156 | Keep what is below the cursor, sort, truncate: the same page |
| `Listings.PageByExclusion` | internal/api/invocation_artifact_listing.go:128-155 | Skip what is at or above the cursor, sort, truncate: the same page |
| `Listings.Gather` | internal/api/scope_invocation_listing.go:115-130 | Visiting a map in any order collects exactly the rows of its entries, each once |
| `Listings.FollowingCursorsIsExact` | internal/api/server.go:265-281 | Following cursors to the end repeats nothing and shows every row that stays there exactly once, for any limits and any changes in between |
| `Views.RowsOnlyGrow` | internal/api/server.go:252-256 | Rows of every listing without a filter on changing state are there for good once they are there |
| `Views.PagingARunIsExact` | internal/api/invocation_listing.go:106-157 | With any requests served between the pages, paging to the end shows everything there was at the first page, and stamps strictly descend, so nothing is shown twice even if it changed meanwhile |
| `Identities.RowsStayDistinct` | internal/api/resource_search.go:156-161 | In every reachable state no two rows of the artifact listing or of search share a stamp, given that derived identifiers tell invocations apart |
| `ReferenceServer.Server.ListWorkspaces` | internal/api/workspace.go:97-154 | A page of exactly the workspaces of the domain that match |
| `ReferenceServer.Server.ListAgentServices` | internal/api/server.go:236-293 | A page of exactly the services of the domain that match |
| `ReferenceServer.Server.ListServiceRevisions` | internal/api/server.go:334-397 | Not found exactly when the service is missing, else a page of exactly its revisions by number |
| `ReferenceServer.Server.ListInvocations` | internal/api/invocation_listing.go:106-157 | Not found exactly when the service is missing, else a page of exactly its invocations |
| `ReferenceServer.Server.ListInvocationArtifacts` | internal/api/invocation_artifact_listing.go:109-156 | Not found exactly when the invocation is missing, else a page of exactly its artifacts |
| `ReferenceServer.Server.ListScopeInvocations` | internal/api/scope_invocation_listing.go:102-143 | A page of all invocations of the domain in the asked state: the join to the service drops none |
| `ReferenceServer.Server.ListScopeArtifacts` | internal/api/scope_artifact_listing.go:102-146 | A page of all artifacts of the domain in the asked state, complete also where rows share a stamp: the joins to invocation and service drop none |
| `ReferenceServer.Server.ListSavedResources` | internal/api/saved_resource.go:236-272 | A page of exactly the owner's saved references, each with the projection of the resource it names, or none when nothing is found; where references resolve every one has its projection |
| `ReferenceServer.Server.SearchResources` | internal/api/resource_search.go:103-167 | A page of all matching workspaces, services, invocations and artifacts of the domain, complete also where rows share a stamp: the joins drop none |
| `EventReplay.FramesRoundTrip` | internal/api/event_replay.go:79-79 | Reading the text of any frames back line by line, by the field names id, event and data, gives exactly the records, in order |
| `EventReplay.WriteBounded` | internal/api/event_replay.go:61-95 | The page carries the longest run of events within record limit and 1 MiB; more is reported exactly when events remain; an oversize first record and an encoding failure are told apart |
| `EventReplay.WriteUnlimited` | internal/api/event_replay.go:44-60 | Sends every frame beyond the cursor up to the first event that does not encode |
| `EventReplay.StreamInvocationEvents` | internal/api/server.go:851-875 | The answer is that of the whole journal although only limit + 1 events were selected |
| `EventReplay.SelectionSuffices` | internal/api/server.go:853-865 | A page never depends on more than limit + 1 of the events |
| `EventReplay.AnswerUnique` | internal/api/event_replay.go:61-95 | Journal, cursor and limit determine the answer |
| `ReferenceServer.Server.StreamInvocationEvents` | internal/api/server.go:833-876 | Not found exactly when there is no journal, else the replay of the stored journal |
| `ReplaySessions.PageAdvances` | internal/api/event_replay.go:63-95 | A page is the next stretch of the journal within both limits; more remain exactly when it says so, and then it has advanced the last identifier in its text |
| `ReplaySessions.SessionIsExact` | internal/api/event_replay.go:63-95 | Resuming from the last identifier of each page gives one unbroken stretch of the journal, however pages fall and however the journal grows |
| `ReplaySessions.BoundedRefinesUnlimited` | internal/api/event_replay.go:43-95 | A finished bounded session has received exactly the text of one unlimited replay |
| `ReplaySessions.OnlyOversizeStops` | internal/api/event_replay.go:79-89 | When events encode, the only stop is a record whose own frame exceeds 1 MiB, and exactly then |
| `ReplaySessions.ReplayDuringARun` | internal/api/server.go:833-876 | The same over journals of a running server, whatever is served between the pages |
| `Artifacts.ObjectKeyInjective` | internal/artifact/finalizer.go:268-276 | Two well-formed records share an object key exactly when domain, invocation, artifact and digest agree |
| `Artifacts.NormalizeStable` | internal/artifact/finalizer.go:246-266 | Normalizing is idempotent and only fills in the object key |
| `FinalizationProtocol.AdvanceKeeps` | internal/artifact/finalizer.go:143-195 | No call, answered, failed or cut off, leaves a record without its object or changes anything stored |
| `FinalizationProtocol.EveryRecordIsBacked` | internal/artifact/finalizer.go:143-195 | Under every interleaving of finalizers, foreign writers, lost acknowledgements and crashes, each record has its object under its key with exactly the recorded size and digest, and nothing stored changes |
| `FinalizationProtocol.FinalizedForGood` | internal/artifact/finalizer.go:176-195 | A returned record stays bound, with exactly the finalized content under its key, ever after |
| `FinalizationProtocol.RetrySucceedsUnlessClash` | internal/artifact/finalizer.go:126-228 | From any sound state an undisturbed attempt returns its record exactly when nothing conflicting is stored, and otherwise reports the conflict and changes nothing |
| `FinalizationProtocol.LostWriteSettles` | internal/artifact/finalizer.go:149-195 | After a write whose answer was lost the attempt returns its record exactly when the content is there, whoever stored it, and otherwise ends with what the write had said; both final states are exact |
| `FinalizationProtocol.AttemptsNeverClash` | internal/artifact/finalizer.go:126-228 | Attempts at one record and content, under any lease and however they fail or crash, with any other names being finalized and equal content written beside them, never stand in the way of a retry |
| `ArtifactStore.Storage.Finalize` | internal/artifact/finalizer.go:126-195 | Every execution, also one cut off by a crash, is a run of the protocol in which each call goes as the weather says; nothing stored changes; a returned record is bound and its content stored; every failure has its reason; with all calls answered, or only the answer of a write lost whose content is there, nothing but a clash keeps it from returning its record |
| `ArtifactStore.AnsweredAttemptsSettle` | internal/artifact/finalizer.go:126-195 | Whatever the others do, an attempt whose calls are answered, a lost write being settled by reading back, returns its record or something different has been stored in its place |
| `ArtifactStore.FailuresHaveReasons` | internal/artifact/finalizer.go:126-228 | Along any run a failure has its reason (refused input, failed call, ended context, crash, clash) and a success had every answer but perhaps that of the write |
| `ArtifactStore.Storage.Preflight` | internal/artifact/finalizer.go:197-228 | The preflight takes the lookup and recheck steps of the protocol |
| `ArtifactStore.Storage.ReadObject` | internal/artifact/finalizer.go:282-309 | Reading at most one byte too many decides exactly whether the object is the recorded one |
| `ArtifactStore.Storage.Read` | internal/artifact/reader.go:35-85 | What is returned is bound and exactly what is stored, and only with every call answered; undisturbed, every artifact of the invocation within the bound is returned; one of another invocation is as good as missing; an artifact of the invocation is never reported missing, and every other failure has its reason |
| `ArtifactStore.Storage.FinalizeThenRead` | internal/artifact/reader.go:35-85 | Whatever was stored in between, a read within its bound returns exactly the finalized bytes |
| `AuditTransport.Destination.Execute` | internal/audittransport/transport.go:30-73 | A path of the transport protocol; success only if the key holds exactly the package; a matching object, whoever stored it, settles any write outcome and a different one never does; nothing is replaced |
| `AuditTransport.Destination.ExecuteTransport` | cmd/dataground-audit-export-transport/main.go:189-223 | Every execution is a path of the protocol to its end or to a crash; success means completion is recorded for a reserved delivery whose exact package is in place; an unauthorized call changes nothing; every failure has its reason; with all calls answered, or only the answer of a write lost whose content is there, only a different object keeps it from completing |
| `AuditTransport.PathKeeps` | internal/audittransport/transport.go:30-73 | Along any path, with others at work between the calls, nothing stored is replaced or withdrawn and what the transport has established stays true |
| `AuditTransport.TransportsSettle` | internal/audittransport/transport.go:30-73 | Whatever the others do, a failed transport has its reason, a completed one had every answer but perhaps that of the write, and one whose calls are answered, a lost write being settled by reading back, completes unless a different object is under its key |
| `TransportProtocol.EveryCompletionDelivered` | cmd/dataground-audit-export-transport/main.go:189-223 | Under every interleaving of transports and foreign writers, with lost acknowledgements and crashes, each completion is of a reserved delivery with its exact package in place, and no object was replaced |
| `TransportProtocol.DifferentNeverCompleted` | internal/audittransport/transport.go:57-72 | Once a different object is under the key it stays there, and no run ever completes the package |
| `TransportProtocol.CompletesUnlessDifferent` | internal/audittransport/transport.go:30-73 | From any state an undisturbed transport completes exactly when it is authorized, its package deliverable and no different object under its key; both final states, and conflict against unavailable, are exact |
| `TransportProtocol.LostWriteSettles` | internal/audittransport/transport.go:43-72 | After a write whose answer was lost the transport completes exactly when the package is there, whoever stored it, and otherwise ends with what the write had said |
| `TransportProtocol.AttemptsNeverBlock` | cmd/dataground-audit-export-transport/main.go:189-223 | Attempts at one delivery, however many and however they fail or crash, never stand in the way of a retry |
| `Supervisor.ValidateSupervisorPolicy` | cmd/dataground-postgres-route-conformance/supervisor.go:311-323 | Accepts exactly the policies with positive timeouts, a poll within the deadline and non-negative backoffs |
| `Supervisor.WaitForRouteChild` | cmd/dataground-postgres-route-conformance/supervisor.go:219-250 | Polls until the child is ready, exits, the deadline passes or the context ends, each only as the environment answers, and says which; the trace stays orderly |
| `Supervisor.StopRouteChild` | cmd/dataground-postgres-route-conformance/supervisor.go:252-263 | Only for a reason: by interrupt or by kill, the exit of the child is received, and nothing else changes |
| `Supervisor.RunBoundedConformanceSupervisor` | cmd/dataground-postgres-route-conformance/supervisor.go:136-210 | Against every environment the trace stays orderly and ends with every exit received, and the result is what the trace says: stopped exactly when the context was seen to end, failed output or unreadable state exactly when met, exhausted only after the whole budget |
| `Supervisor.AtMostOneChild` | cmd/dataground-postgres-route-conformance/supervisor.go:159-210 | At every moment of an orderly trace the exit of at most one child is outstanding, and attempts stay within backoffs plus one |
| `Supervisor.EachExitReceivedOnce` | cmd/dataground-postgres-route-conformance/supervisor.go:159-210 | Each started child's exit is received exactly once, before the next start and before the end |
| `Supervisor.ArgumentsFollowObservation` | cmd/dataground-postgres-route-conformance/supervisor.go:155-205 | Initial arguments are passed exactly while the latest observation was that the state file is absent |
| `Supervisor.ArgumentsNeverReturn` | cmd/dataground-postgres-route-conformance/supervisor.go:197-205 | Once an attempt was made without them they are never passed again |
| `Supervisor.LinesFollowForm` | cmd/dataground-postgres-route-conformance/supervisor.go:176-196 | The emitted lines always have the form (ready? restart-scheduled)* ready? |
| `Supervisor.RestartsMatchAttempts` | cmd/dataground-postgres-route-conformance/supervisor.go:191-196 | A restart is announced between any two attempts, and at most once after the last |
| `Supervisor.LinesTellTheTruth` | cmd/dataground-postgres-route-conformance/supervisor.go:175-196 | Ready is written only for a child that just became ready and whose exit has not been received, a restart only when every exit has been received, and a ready child is announced before anything else unless the context has ended or the line cannot be written |
| `Supervisor.StopsHaveReasons` | cmd/dataground-postgres-route-conformance/supervisor.go:165-189 | A child is interrupted only right after its deadline passed, the context ended or its readiness could not be announced, and each of these is what the environment answered then |
| `Supervisor.ReadyChildrenAreLeftAlone` | cmd/dataground-postgres-route-conformance/supervisor.go:180-185 | Once announced, a child is left alone until it exits or the context ends |
| `Supervisor.EndingIsHeeded` | cmd/dataground-postgres-route-conformance/supervisor.go:168-208 | A context seen to have ended while a child is waited for or a restart is due ends the run: at most the child is still stopped |
| `ConfigurationJson.RequireUniqueConfigurationJson` | cmd/dataground-api/oidc_security.go:409-419 | Accepts exactly the complete token streams of value trees with distinct member names at every level and nothing deeper than 16 |
| `ConfigurationJson.ValidateValue` | cmd/dataground-api/oidc_security.go:421-467 | Advances past one acceptable value, exactly when there is one |
| `ConfigurationJson.ExactLanguage` | cmd/dataground-api/oidc_security.go:421-467 | The accepted token streams are exactly those of such trees |
| `ConfigurationJson.AcceptsTree` | cmd/dataground-api/oidc_security.go:421-467 | On the tokens of a tree, with anything behind it, acceptance is decided by the tree's names and depth alone |
| `KeysetJson.RequireUniqueKeysetRequestJson` | cmd/dataground-oidc-keyset/main.go:176-193 | Accepts exactly the complete token streams of objects with distinct member names and at most 16 containers inside one another |
| `KeysetJson.ValidateContainer` | cmd/dataground-oidc-keyset/main.go:195-246 | Advances past the rest of a container, exactly when it is acceptable |
| `KeysetJson.KeysetImpliesConfiguration` | cmd/dataground-oidc-keyset/main.go:176-246 | Everything the keyset validator accepts, the configuration validator accepts |
| `KeysetJson.ValidatorsDiffer` | cmd/dataground-oidc-keyset/main.go:195-246 | The configuration validator alone accepts exactly the acceptable trees whose root is no object or that hold an empty container at depth 16 |
| `RuntimeAcceptance.FailureIsForGood` | cmd/dataground-worker/strict_local_runtime.go:94-112 | A failed observation, once marked, and a factory that gave nothing usable leave the checker failed in every later state |
| `RuntimeAcceptance.Checker.EnterDeployment` | cmd/dataground-worker/strict_local_runtime.go:83-106 | The section that obtains the observation: the factory is called only when nothing is stored and nothing has latched |
| `RuntimeAcceptance.Checker.Check` | cmd/dataground-worker/local_runtime_acceptance.go:187-303 | A check, with others at work between its locked sections, takes exactly the steps of a check task of the interleaving; it proves only what was verified, judged good and, where strict, observed healthy on a stored observation; and unless the checker is closed or failed in the end it proves everything that was |
| `RuntimeAcceptance.Checker.Close` | cmd/dataground-worker/strict_local_runtime.go:116-132 | A close takes exactly the steps of a close task, and closes the observation exactly when it was the one to take it over |
| `RuntimeAcceptance.VerdictsAreEarned` | cmd/dataground-worker/local_runtime_acceptance.go:187-303 | Under every interleaving no check is proved that was not verified, judged good and, where strict, found healthy on the stored observation, and none is refused while the checker stays usable unless it failed a judgement of its own |
| `RuntimeAcceptance.ActConserves` | cmd/dataground-worker/strict_local_runtime.go:83-132 | One step of any check or close moves ownership of the observation and never duplicates or drops it |
| `RuntimeAcceptance.ObservationClosedOnce` | cmd/dataground-worker/strict_local_runtime.go:83-132 | Under every interleaving the factory runs at most once, its observation is closed at most once, and exactly once when a close has gone through and nobody still holds it |
| `RuntimeAcceptance.NoProofAfterClose` | cmd/dataground-worker/local_runtime_acceptance.go:296-302 | No check whose last section comes after a close or a deployment failure ever returns a proof |

## Left out

- The durable server and everything that delegates to persistence, reconciliation, execution and authentication.
- HTTP routing, headers, cursor and limit parsing, error messages and field errors; the byte-level JSON and base64 codecs.
- Reads of single resources, listings of aliases, approvals, questions, audit entries and of one workspace's services, and the question-answer route, which would only add members like those present.
- JSON-schema validation, the reference fixtures, cryptography, files, locks, signals, timers and real time.
- Integer widths: versions, sequence numbers and sizes are unbounded; journals and contents are far below 2^63 entries.
- Listings over states with dangling references, which no run reaches (`Lifecycle.ReferencesResolve`).
- The stored state field of artifacts, which is always "available", and the labels of resources.
- Clearing of content buffers after use, in the artifact reader and the audit transport.
- Sorting.SortSlice: sorts a sequence by insertion and returns it; the in-place update of the slice and the library's own algorithm are not captured.
- Journal.LastEventDecides: invocation records are values here; their update in place is not captured.
- ReferenceServer.Server.ListSavedResources: computes the projections after truncating the page rather than before sorting, which cannot be told apart.
- Supervisor.RunBoundedConformanceSupervisor: durations are only validated; what arrives first is the environment's answer.
