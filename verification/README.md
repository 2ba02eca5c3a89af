# A verified model of the collaborative UML service

The service lets several people edit a UML diagram at the same time, exchanges diagrams as XMI, and turns a diagram
into a relational model, a Spring Boot project and the artifacts around it. This Dafny project models the parts of it
that carry state, concurrency or a promise about meaning, and proves what they promise.

`dafny verify dfyconfig.toml` checks everything. One module per component, each in a file of its own name.

## How the model is built

Code that edits state in place is a class or a loop (the command executor, the integrity check, the mutation queue, the
gateway, the lock store, the XMI parser, the searches and walks of the generators, the session store), and each method
is tied to a function on values; what the service promises is proved about those functions. Code that only computes is a
function. What happens between two awaits or in one database statement is one step of a state machine; theorems about
the protocol hold in every state that any sequence of steps reaches, crashes included where the code survives them.

* **Editing.** `Commands` says what each of the sixteen commands does to a diagram and, separately, which elements it
  declares to affect, `CommandEffects` what that means for every part of the diagram; `Cascade` is the deletion of
  everything that dangles; `CommandExecutor` edits a working copy in place. `Integrity`, `AcyclicCheck` and
  `DeletionIntegrity` are the well-formedness of a document. `DocumentLog` is the revision and operation log under
  concurrent attempts, over any validator and executor. `LockedCommits` runs it together with the queue and the leases,
  and `CommandCommit` instantiates both with the modules above. `StableJson` is the text that commands are fingerprinted
  by.
* **Delivery.** `MutationQueue` is the queue of a document, built from a chain of promises; `Delivery` is the protocol
  of broadcasts, resyncs, marks, recovery, timers and crashes for one document; `MemberRevocation` is the bookkeeping of
  removed members over all documents; `Gateway` holds the handlers that update the shared maps and sets, and shows that
  each is the step of the protocol it stands for. `LockStore` is the store of leases with its two indexes.
* **XMI.** `XmiExport` writes a diagram as a sequence of tags, `XmiParser` and `XmiMachine` read one with a stack of
  contexts, `XmiImport` maps the raw model back (`XmiAssociations`: the ends of associations), and `SemanticProjection`
  says when two models mean the same. The modules from `XmiGains` to `XmiRoundTrip` prove that import after export loses
  nothing.
* **Generation.** `Dependencies` orders resources and finds cycles; `Postman`, `PostmanVariables` and `PostmanOrder` are
  the generated request collection, how it runs and which variables it needs. `Relational` and `RelationalContract` are
  the relational model and its validator; `InheritanceWalks` are the three walks up the inheritance of a table;
  `GeneralizationOrder` and `JoinedIdentifiers` turn generalizations into joined tables, `JoinedTables` is what the
  validator says of them; `RequestSchemas` and `SchemasAgree` compare the transfer object of an entity with its OpenAPI
  schema.
* **Sessions.** `RefreshRotation` is the rotation of refresh tokens under concurrent refreshes and logouts.

`Wrappers`, `Sequences`, `Permutations`, `Sorting`, `Graphs` and `Machines` are shared helpers; `Uml` is the document.

## Where the code falls short of what it says

* Deleting an association class can make two relationships equal, which the integrity check then rejects
  (`src/modules/uml-domain/uml-command.executor.ts:330`). `SignaturesStayDistinctUnlessTwins` says exactly when.
* A class may inherit from an association class with an id of its own; the transformer joins the tables, and its own
  validator then rejects the model (`src/modules/generation/relational-model/relational-model.validator.ts:433-436`),
  because the table of an association class is no root. `JoinedTablesPassTheCheckExactly` says exactly when.
* An XMI multiplicity `n..n` comes back as `n` (`src/modules/uml-domain/xmi/xmi.adapter.ts:621`). Bounds always survive;
  texts survive exactly without such ends.
* The generated collection describes nullable cycles as working
  (`src/modules/generation/spring-boot-export/spring-boot-export.artifacts.ts:516`). A resource that takes a value from
  one that leads to a cycle is created in time only if the ids happen to be in that order; `CollectionsAreSafeExactly`
  says exactly when a collection works, `OpenedCyclesMayStillFail` gives one that does not.

## What is taken as given

* Digests and signatures are functions; where two of them must differ, the theorem asks for it or says what happens
  otherwise (`CollisionFree`, `ClassifierIdsStayDistinct`, `Injective`). Truncated digests make `canonicalId` not
  injective in principle, which is why the round trip names the collision instead of excluding it.
* Ids are those the JSON schemas admit; in particular they contain no colon. Schema checking itself is an input; it also
  bounds every number in a command, so commands are finite. Infinite ones would be fingerprinted like null
  (`InfinityHasTheTextOfNull`).
* The queue has at least the two slots that critical work needs; the configuration asks for eight
  (`src/config/env.validation.ts:95-99`). One slot would not be enough, as `OneSlotRefusesCriticalWork` shows.
* Evicting the sockets of a deleted document does not fail: what can throw in it is caught for each socket
  (`src/modules/uml-domain/collaboration.gateway.ts:869-885`).
* The normalisation of names and the order of ids are parameters: any function, and any strict total order.
* Every Java type the generator falls back to is one it supports (`FallbacksAreSupported`), as its tables have it
  (`src/modules/generation/spring-boot/spring-boot.generator.ts:72-130`).
* Before tables are joined, that of an entity is a root, that of an association class has no part in inheritance, and no
  foreign key is on a whole key (`IsUnjoined`), as the transformer builds them
  (`src/modules/generation/relational-model/relational-model.transformer.ts:576-598` and lines 704-762).
* The semantic projection compares multisets. The code sorts lists with `localeCompare`, under which different entries
  may compare equal and stay in the order in which they came
  (`src/modules/uml-domain/xmi/xmi.semantic-equivalence.ts:41-81`); the order of such entries is not modelled.
* Clocks are natural numbers that do not go back. A lock-store operation sees one time.

## Model

| member | source | states |
|---|---|---|
| Cascade.Deleted | src/modules/uml-domain/uml-command.executor.ts:296-359 | the rounds of the cascade end in the least set that contains the deleted ids and is closed under "a relationship at a deleted classifier takes its association class along" |
| Cascade.LeastClosedIsUnique | src/modules/uml-domain/uml-command.executor.ts:302-326 | that set is the only one of its kind, so the order of the rounds does not matter |
| Commands.AppliedCommandsDeclareTheirEffect | src/modules/uml-domain/uml-command.executor.ts:31-81 | whenever a command can be applied, its affected elements can be named beforehand |
| Commands.UnaffectedElementsKeepTheirView | src/modules/uml-domain/uml-command.executor.ts:31-223 | for every command: the element, the position and the incident relationships of every id outside the affected elements come out unchanged and in the same order |
| Commands.NothingInWithout | src/modules/uml-domain/uml-command.executor.ts:328-350 | deleting classifiers makes no element, position or relationship appear |
| CommandExecutor.WorkingDocument.SyncTypeReferenceNames | src/modules/uml-domain/uml-command.executor.ts:261-294 | renaming in place rewrites exactly the references to the renamed classifier |
| CommandExecutor.WorkingDocument.Cascaded | src/modules/uml-domain/uml-command.executor.ts:302-326 | the loop that grows two sets computes the cascade |
| CommandExecutor.WorkingDocument.RemoveClassifiersAndReferences | src/modules/uml-domain/uml-command.executor.ts:296-350 | the working document becomes the document without the cascade of the given ids |
| CommandExecutor.WorkingDocument.DeleteRelationshipAggregate | src/modules/uml-domain/uml-command.executor.ts:352-359 | a relationship goes alone or, with its association class, through the cascade |
| CommandExecutor.WorkingDocument.Mutate | src/modules/uml-domain/uml-command.executor.ts:83-223 | the sixteen branches in place do what the sixteen branches on values say (`CommandsDoExactlyThis` says what that is); a refused command leaves the working document alone |
| CommandExecutor.Execute | src/modules/uml-domain/uml-command.executor.ts:21-29 | a command that changes nothing is refused; the result is the command applied to a copy |
| CommandEffects.CommandsDoExactlyThis | src/modules/uml-domain/uml-command.executor.ts:83-223 | for each of the sixteen commands, when it can be applied and what it then does to every part of the diagram, as a relation between the diagram before and after; the command is applied exactly with that effect |
| CommandEffects.ExecutionDoesExactlyThis | src/modules/uml-domain/uml-command.executor.ts:21-29 | a command is carried out exactly when it has its effect on the diagram and the diagram is not the same afterwards |
| CommandEffects.CommandsDeclareExactlyThis | src/modules/uml-domain/uml-command.executor.ts:31-81 | a command that can be applied declares exactly its own classifier, the classifiers at its relationship, those whose types carry the name it changes, or everything if it may delete |
| XmiRoundTrip.ManyIsMoreThanOne | src/modules/uml-domain/uml-command.executor.ts:379-386 | a multiplicity counts as many exactly when it has no upper bound or one above 1 |
| Integrity.CheckIntegrity | src/modules/uml-domain/canonical-model.validation.ts:45-241 | the check with its growing sets accepts exactly the documents that satisfy every clause |
| AcyclicCheck.Search.Visit | src/modules/uml-domain/canonical-model.validation.ts:268-290 | a visit reports a cycle only if there is one; otherwise everything it leaves visited lies on no cycle |
| AcyclicCheck.HasCycle | src/modules/uml-domain/canonical-model.validation.ts:256-295 | over the relationships of a kind the check fails exactly when they form a directed cycle |
| DeletionIntegrity.DeletionKeepsIntegrity | src/modules/uml-domain/uml-command.executor.ts:296-350 | deleting classifiers keeps every clause of the integrity check but the one about equal relationships |
| DeletionIntegrity.DeletionCommandsKeepIntegrity | src/modules/uml-domain/uml-command.executor.ts:115-119 | a deletion of a classifier or of a relationship, when carried out, keeps every clause but the one about equal relationships |
| DeletionIntegrity.RelationshipRemovalKeepsIntegrity | src/modules/uml-domain/uml-command.executor.ts:352-359 | so does removing one relationship |
| DeletionIntegrity.SignaturesStayDistinctUnlessTwins | src/modules/uml-domain/uml-command.executor.ts:330-341 | two relationships become equal exactly when they differed only by association classes that are absent or deleted |
| DeletionIntegrity.DeletionMayRepeatARelationship | src/modules/uml-domain/uml-command.executor.ts:328-341 | it happens: in a well-formed document the command that deletes the class of one of two associations is carried out and makes them equal |
| DeletionIntegrity.IntegrityGrounds | src/modules/uml-domain/canonical-model.validation.ts:131-190 | in a document with integrity no position or relationship mentions an unknown classifier |
| DocumentLog.StepKeeps | src/modules/uml-domain/document-command.service.ts:142-311 | every step of any number of concurrent attempts, replacements and deletions keeps the invariant of the log |
| DocumentLog.LogIsComplete | src/modules/uml-domain/document-command.service.ts:268-277 | in every run, while the document exists, the snapshots are exactly 0 to the current revision, each accepted by the validator and labelled with its revision and the ids of the document, and the last is the document |
| DocumentLog.OperationsReplay | src/modules/uml-domain/document-command.service.ts:183-291 | in every run the snapshot of each operation is the normalised execution of its command on the snapshot before |
| DocumentLog.OperationsCommitOnce | src/modules/uml-domain/document-command.service.ts:142-187 | however many attempts carry an operation id, at most one commits |
| DocumentLog.KeysAreNeverViolated | src/modules/uml-domain/document-command.service.ts:268-291 | a write that finds its revision unchanged never meets an existing snapshot or operation with its key |
| DocumentLog.RetriesAnswerAlike | src/modules/uml-domain/document-command.service.ts:403-423 | a known operation id answers with its first result to the same actor and payload, and is refused to any other |
| DocumentLog.OperationsStoreTheirResult | src/modules/uml-domain/document-command.service.ts:183-291 | in every run the snapshot of an operation has the elements, relationships, positions and name that the executor makes of the snapshot before, its other metadata, the ids of the document, the next revision and the time of the commit |
| DocumentLog.UndisturbedAttemptsCommit | src/modules/uml-domain/document-command.service.ts:163-291 | an attempt with nothing in between commits exactly when its id is new, its base is current, nobody has locked what it affects and the result is storable; it then adds that result and its row, and otherwise nothing |
| DocumentLog.ReplacementsAreStored | src/modules/uml-domain/documents.service.ts:162-240 | a replacement stores the submitted model under the ids of the document and the next revision exactly when the document is there at the expected revision and the model is accepted as it comes and with those ids |
| DocumentLog.ReplacingKeeps | src/modules/uml-domain/documents.service.ts:168-247 | replacing the document writes one more snapshot or none |
| DocumentLog.RemovingKeeps | src/modules/uml-domain/documents.service.ts:265-299 | deleting the document removes its snapshots and operations with it |
| CommandCommit.IntegrityIgnoresMetadata | src/modules/uml-domain/canonical-model.validator.ts:17-56 | the integrity check satisfies what the log asks of a validator: revision and time do not matter |
| CommandCommit.SnapshotsAreWellFormed | src/modules/uml-domain/document-command.service.ts:213-226 | in every run every snapshot passes the integrity check |
| CommandCommit.ProducedKeepsOtherViews | src/modules/uml-domain/uml-command.executor.ts:31-223 | what a command stores shows every element outside its declared effect as it was |
| LockedCommits.StepKeeps | src/modules/uml-domain/collaboration.gateway.ts:389-396 | every step of queue, log, leases and clock, and the deletion of the document at any moment, keeps the invariant: only the head of the line is under way, and what passed its lock check is still unlocked |
| LockedCommits.RunningIsTheHead | src/modules/uml-domain/document-mutation-queue.service.ts:48-57 | of the operations of a document only the one at the head may run |
| LockedCommits.OperationsEndLeases | src/modules/uml-domain/collaboration-lock.store.ts:22-103 | apart from acquiring and renewing, no operation of the lock store gives the document a live lease it did not have |
| LockedCommits.CommitsAvoidLiveLeases | src/modules/uml-domain/document-command.service.ts:195-205 | in every run no other socket has, at the moment of a commit, a live lease on an element the command affects |
| LockedCommits.RefusedForALockExactly | src/modules/uml-domain/document-command.service.ts:187-211 | in every run a command is refused for a lock exactly when it is new, fits the revision, its target exists and another socket has a live lease on an element it declares |
| LockedCommits.ReplacementsAvoidLiveLeases | src/modules/uml-domain/documents.service.ts:186-195 | in every run, when a replacement is written, no element of the replaced document has a live lease |
| CommandCommit.CommitsRespectLiveLeases | src/modules/uml-domain/document-command.service.ts:195-235 | in every run each element that another socket holds a live lease on at the commit is in the new snapshot as it was: element, position and relationships |
| StableJson.TextsAgreeExactlyWhenValuesShowTheSame | src/modules/uml-domain/document-command.service.ts:485-503 | two JSON values have the same text exactly when they are equal with unordered keys, numbers beyond the range counting as null |
| StableJson.TextIsInjective | src/modules/uml-domain/document-command.service.ts:485-503 | without such numbers the text is injective up to the order of keys, nested lists and escaped strings included |
| StableJson.FingerprintsDecideThePayload | src/modules/uml-domain/document-command.service.ts:475-479 | with an injective digest the fingerprint decides the base revision and the command |
| StableJson.FingerprintsDecideFiniteCommands | src/modules/uml-domain/document-command.service.ts:475-479 | for the finite commands that the schema admits, equal fingerprints mean equal base and equal command up to the order of keys |
| StableJson.EscapedTextDecides | src/modules/uml-domain/document-command.service.ts:490-492 | an escaped string is recognised in front of any text, surrogates included |
| StableJson.InOrderForgetsOrder | src/modules/uml-domain/document-command.service.ts:496-500 | sorted keys do not depend on the order of insertion |
| MutationQueue.DocumentMutationQueue.Enqueue | src/modules/uml-domain/document-mutation-queue.service.ts:33-57 | a request joins the end of its document's line, or is refused when the line is full for its priority; other lines stay |
| MutationQueue.DocumentMutationQueue.Finish | src/modules/uml-domain/document-mutation-queue.service.ts:59-71 | the head of a line leaves it, and the maps forget a document whose line is empty |
| MutationQueue.OnlyTheHeadMayStart | src/modules/uml-domain/document-mutation-queue.service.ts:48-58 | of the promises chained for a document exactly the one at the head may start: operations run one at a time and in order |
| MutationQueue.PendingCountsTheLine | src/modules/uml-domain/document-mutation-queue.service.ts:33-58 | the pending count is the length of the line, and the tail is the last promise of it |
| MutationQueue.CriticalWorkHasRoom | src/modules/uml-domain/document-mutation-queue.service.ts:33-47 | with two slots or more a line without critical work has room for critical work |
| Delivery.StepKeepsInv | src/modules/uml-domain/collaboration.gateway.ts:723-790 | every step between two awaits of a mutation, of critical work or of an event keeps the invariant of the protocol |
| Delivery.DeliveredOperationsWereSent | src/modules/uml-domain/collaboration.gateway.ts:754-789 | in every run, crashes included, an operation is marked delivered only if the room was sent it, or a resync to at least its revision |
| Delivery.AnnouncedCommandsWereSent | src/modules/uml-domain/collaboration.gateway.ts:396-424 | in every run, once a command has announced, its operation was sent if it was the latest when the document was fetched, and else a resync to the later revision found |
| Delivery.CommandsSendTheirOperation | src/modules/uml-domain/collaboration.gateway.ts:396-434 | in every run, a mutation sends nothing but its operation, or a resync to a revision above it, and nothing to a document known to be deleted |
| Delivery.CommandDelivers | src/modules/uml-domain/collaboration.gateway.ts:389-434 | undisturbed, a new command adds one revision, sends exactly its operation and ends delivered; an undelivered retry sends it again or the current revision |
| Delivery.DeliveredRetryIsSilent | src/modules/uml-domain/collaboration.gateway.ts:396-396 | the retry of a delivered command sends and stores nothing |
| Delivery.OnlyWhatIsStoredIsSent | src/modules/uml-domain/collaboration.gateway.ts:396-424 | in every run the room hears only of operations that are stored and revisions that were reached |
| Delivery.DeletionsAreRemembered | src/modules/uml-domain/collaboration.gateway.ts:642-648 | in every run a deletion the gateway was told of stays remembered with its work planned until the sockets are evicted |
| Delivery.RecoveriesAreRemembered | src/modules/uml-domain/collaboration.gateway.ts:849-867 | in every run an operation listed as undelivered is delivered, or gone with its document, or recovery stays remembered with its work planned |
| Delivery.PublishedReplacementsAreAnnounced | src/modules/uml-domain/collaboration.gateway.ts:642-654 | a replacement published since the process started is announced at or above its revision, or still remembered with its work scheduled or a retry timer set |
| Delivery.CriticalWorkIsNeverRefused | src/modules/uml-domain/collaboration.gateway.ts:695-721 | with two slots or more critical work always finds room, and a document with critical work is scheduled or has a retry timer |
| Delivery.RecoveryDelivers | src/modules/uml-domain/collaboration.gateway.ts:849-867 | undisturbed, recovery sends the current revision and leaves nothing pending |
| Gateway.CollaborationGateway.ScheduleCriticalDocumentWork | src/modules/uml-domain/collaboration.gateway.ts:695-721 | the map and set updates are the scheduling of the protocol, for one document; others stay |
| Gateway.CollaborationGateway.CriticalWorkEnded | src/modules/uml-domain/collaboration.gateway.ts:707-721 | the last handler of critical work clears the mark and schedules, retries or ends |
| Gateway.CollaborationGateway.RetryTimerFired | src/modules/uml-domain/collaboration.gateway.ts:824-836 | a retry timer schedules the work again |
| Gateway.CollaborationGateway.HandleExternalDocumentChange | src/modules/uml-domain/collaboration.gateway.ts:642-654 | a replacement is remembered unless a later one is, and its work is scheduled |
| Gateway.CollaborationGateway.HandleMemberGranted | src/modules/uml-domain/collaboration.gateway.ts:656-668 | granting clears the revocation of the key and its remaining documents |
| Gateway.CollaborationGateway.HandleMemberRemoved | src/modules/uml-domain/collaboration.gateway.ts:669-686 | a removal replaces an earlier one of the same member and evicts from every listed document |
| Gateway.CollaborationGateway.HandleProjectDeleted | src/modules/uml-domain/collaboration.gateway.ts:688-692 | every listed document is marked deleted, forgets its announcement and has its work scheduled |
| Gateway.CollaborationGateway.TakeEvictions | src/modules/uml-domain/collaboration.gateway.ts:723-725 | critical work takes the evictions of its document and leaves the others |
| Gateway.CollaborationGateway.DeletedDocumentEvicted | src/modules/uml-domain/collaboration.gateway.ts:727-732 | the marks of a deleted document are cleared after its sockets are gone |
| Gateway.CollaborationGateway.OperationsMarked | src/modules/uml-domain/collaboration.gateway.ts:786-789 | recovery is noted as done after the operations are marked |
| Gateway.CollaborationGateway.RecoverUndeliveredOperations | src/modules/uml-domain/collaboration.gateway.ts:849-867 | every listed document gets its recovery scheduled |
| Gateway.CollaborationGateway.CompleteMemberEvictions | src/modules/uml-domain/collaboration.gateway.ts:792-813 | completing evictions is the fold of completing one of them |
| Gateway.CollaborationGateway.PendingAnswered | src/modules/uml-domain/collaboration.gateway.ts:754-771 | what is to be announced is what was remembered when the database answered |
| Gateway.CollaborationGateway.BroadcastReturned | src/modules/uml-domain/collaboration.gateway.ts:778-785 | only the announcement that was remembered before the broadcast is forgotten |
| MemberRevocation.RevokedUntilProcessed | src/modules/uml-domain/collaboration.gateway.ts:656-686 | in every run a key is revoked exactly while a document listed by the member's latest removal is unprocessed and access has not been granted again |
| MemberRevocation.RevocationsProgress | src/modules/uml-domain/collaboration.gateway.ts:792-813 | the documents that keep a key revoked are exactly those whose eviction is remembered or in progress |
| MemberRevocation.AllCompletedNow | src/modules/uml-domain/collaboration.gateway.ts:792-813 | what a completed eviction leaves of the revocations in a run is what the gateway's loop leaves |
| MemberRevocation.StepKeeps | src/modules/uml-domain/collaboration.gateway.ts:723-746 | every step keeps revoked keys, remaining documents and evictions in agreement |
| LockStore.LiveLeaseIsExclusive | src/modules/uml-domain/collaboration-lock.store.ts:22-103 | until a lease expires no sequence of operations of others changes or removes it |
| LockStore.AcquiringSucceedsExactly | src/modules/uml-domain/collaboration-lock.store.ts:22-58 | a client has the element for the time asked for exactly when nobody else has a live lease on it; otherwise that lease stays |
| LockStore.RenewingSucceedsExactly | src/modules/uml-domain/collaboration-lock.store.ts:60-81 | of the live leases only the one whose holder presents its id gets the new end |
| LockStore.ReleasingSucceedsExactly | src/modules/uml-domain/collaboration-lock.store.ts:83-103 | of the live leases only the one whose holder presents its id goes |
| LockStore.AcquiredLeasesAreKept | src/modules/uml-domain/collaboration-lock.store.ts:22-103 | an element once acquired is kept for the time asked for, whatever others do, and everybody else is refused it until then |
| LockStore.KeySplits | src/modules/uml-domain/collaboration-lock.store.ts:106-112 | keys are split back into the two ids they were joined from |
| LockStore.CollaborationLockStore.Acquire | src/modules/uml-domain/collaboration-lock.store.ts:22-58 | an element is taken, renewed by its holder or refused to anyone else, and both indexes keep describing the same leases |
| LockStore.CollaborationLockStore.Renew | src/modules/uml-domain/collaboration-lock.store.ts:60-81 | only the holder with its lease id renews |
| LockStore.CollaborationLockStore.Release | src/modules/uml-domain/collaboration-lock.store.ts:83-103 | only the holder with its lease id releases |
| LockStore.CollaborationLockStore.ReleaseBySocket | src/modules/uml-domain/collaboration-lock.store.ts:105-122 | afterwards the socket holds nothing, and every other lease is as before |
| LockStore.CollaborationLockStore.ReleaseBySocketInDocument | src/modules/uml-domain/collaboration-lock.store.ts:124-141 | exactly the socket's leases on the document go |
| LockStore.CollaborationLockStore.ExpireDocument | src/modules/uml-domain/collaboration-lock.store.ts:235-250 | exactly the expired leases of the document go |
| LockStore.CollaborationLockStore.ReconcileDocumentElements | src/modules/uml-domain/collaboration-lock.store.ts:168-184 | exactly the leases on elements that are gone, or expired, go |
| LockStore.CollaborationLockStore.ExpirationTimerFired | src/modules/uml-domain/collaboration-lock.store.ts:209-227 | a timer removes its lease only if that has expired |
| LockStore.CollaborationLockStore.HasLockOwnedByAnotherSocket | src/modules/uml-domain/collaboration-lock.store.ts:143-157 | some element has a live lease of another socket |
| LockStore.CollaborationLockStore.HasAnyLock | src/modules/uml-domain/collaboration-lock.store.ts:159-166 | some element has a live lease |
| LockStore.CollaborationLockStore.Remove | src/modules/uml-domain/collaboration-lock.store.ts:252-264 | both indexes lose the lease and keep no empty entry |
| XmiText.EscapeRoundTrip | src/modules/uml-domain/xmi/xmi.adapter.ts:2057-2076 | escaped text is read back and contains no quote and no tag delimiter |
| XmiText.CanonicalIdIsStable | src/modules/uml-domain/xmi/xmi.adapter.ts:590-599 | importing an exported id does not change it |
| XmiText.CanonicalIdsOfKindsDiffer | src/modules/uml-domain/xmi/xmi.adapter.ts:590-599 | ids of different kinds never meet |
| XmiMachine.Parser.OpenTag | src/modules/uml-domain/xmi/xmi.adapter.ts:779-1395 | opening a tag on the mutable stack is one step of the specification, limits and ids checked |
| XmiMachine.Parser.CloseTag | src/modules/uml-domain/xmi/xmi.adapter.ts:1420-1446 | closing a tag attaches the finished element to the one around it or to the model |
| XmiMachine.ParseXmi | src/modules/uml-domain/xmi/xmi.adapter.ts:667-1457 | the parser accepts exactly the documents the specification accepts, with the same content |
| XmiReadBack.DocumentIsRead | src/modules/uml-domain/xmi/xmi.adapter.ts:667-1457 | the parser reads an exported document to the end and builds exactly the raw model of the diagram |
| XmiCoverage.EveryClassifierIsWrittenOnce | src/modules/uml-domain/xmi/xmi.adapter.ts:2482-2592 | every classifier is written once, association classes with their association |
| XmiCoverage.EveryRelationshipIsWrittenOnce | src/modules/uml-domain/xmi/xmi.adapter.ts:2320-2436 | every relationship is written once, as an association or inside its source |
| XmiKeys.WrittenIdsDiffer | src/modules/uml-domain/xmi/xmi.adapter.ts:590-599 | the xmi:ids of an exported document differ exactly when no two digests collide |
| XmiTexts.ExportedTextsArePlain | src/modules/uml-domain/xmi/xmi.adapter.ts:580-588 | an accepted model has no tab and no line break in any text that is written |
| XmiImport.MapAssociations | src/modules/uml-domain/xmi/xmi.adapter.ts:1730-1865 | the two passes with their swaps map every association, or refuse all of them |
| XmiAssociations.TheWholeIsTheSource | src/modules/uml-domain/xmi/xmi.adapter.ts:1825-1844 | of the ends of a kept association, in whatever order listed, the one that aggregates becomes the source and decides the kind; without it the listed order is kept |
| XmiAssociations.OrderMattersWithoutAWholeOnly | src/modules/uml-domain/xmi/xmi.adapter.ts:1757-1777 | exchanging the entries of memberEnd changes nothing but the direction of a plain association |
| XmiImported.RawIsImported | src/modules/uml-domain/xmi/xmi.adapter.ts:1971-2055 | the raw model of an exported diagram is imported completely and without a diagnostic |
| XmiRoundTrip.ImportOfExport | src/modules/uml-domain/xmi/xmi.adapter.ts:1971-2055 | the importer accepts an exported document exactly within the limits and without colliding digests, and builds the same model with canonical ids |
| XmiRoundTrip.RoundTrip | src/modules/uml-domain/xmi/xmi.adapter.ts:2482-2592 | import of export has an equal semantic projection, multiplicities as bounds, and no diagnostics |
| XmiRoundTrip.RoundTripOfTexts | src/modules/uml-domain/xmi/xmi.adapter.ts:608-624 | with multiplicities as texts the projections agree exactly when no end is written as a range of one number |
| XmiRoundTrip.BoundsComeBack | src/modules/uml-domain/xmi/xmi.adapter.ts:608-624 | every multiplicity keeps its bounds |
| XmiRoundTrip.TextComesBack | src/modules/uml-domain/xmi/xmi.semantic-equivalence.ts:10-12 | a multiplicity keeps its normalised text exactly when it is no range of one number |
| XmiRoundTrip.OneToOneComesBackAsOne | src/modules/uml-domain/xmi/xmi.adapter.ts:621 | 1..1 comes back as 1 |
| XmiRoundTrip.ModelMeansTheSame | src/modules/uml-domain/xmi/xmi.semantic-equivalence.ts:28-88 | the model with canonical ids has the projection of the original |
| Dependencies.Search.Visit | src/modules/generation/spring-boot-export/spring-boot-export.artifacts.ts:812-827 | a search reports a path only if there is one; otherwise what it has seen is closed but for the path it is on |
| Dependencies.PathExists | src/modules/generation/spring-boot-export/spring-boot-export.artifacts.ts:812-827 | with the set of visited ids shared between the branches the search decides reachability |
| Dependencies.DependencyCycles | src/modules/generation/spring-boot-export/spring-boot-export.artifacts.ts:790-798 | exactly the resources that depend on themselves are reported |
| Dependencies.DependencyOrder | src/modules/generation/spring-boot-export/spring-boot-export.artifacts.ts:761-788 | the loop over the shrinking map computes the order by rounds |
| Dependencies.OrderIsAPermutation | src/modules/generation/spring-boot-export/spring-boot-export.artifacts.ts:761-788 | every resource is in the order once |
| Dependencies.OrderPutsDependenciesFirst | src/modules/generation/spring-boot-export/spring-boot-export.artifacts.ts:772-786 | unless a round gets stuck every dependency comes first |
| Dependencies.FallbackExactlyOnCycles | src/modules/generation/spring-boot-export/spring-boot-export.artifacts.ts:777-782 | the fallback is taken exactly when a cycle is reported |
| Postman.TheRunMakesEveryRequestOnce | src/modules/generation/spring-boot-export/spring-boot-export.artifacts.ts:481-539 | the collection has exactly one run; it makes each of the 5n requests once, in the order of the actions |
| Postman.NextActionAt | src/modules/generation/spring-boot-export/spring-boot-export.artifacts.ts:495-500 | the map of next requests holds for every action the one after it |
| Postman.TheRunIsOrdered | src/modules/generation/spring-boot-export/spring-boot-export.artifacts.ts:486-494 | all creations, then all listings, reads and updates, and all deletions last; deletions in the opposite order of the creations, the others in the same |
| PostmanVariables.ValueForColumn | src/modules/generation/spring-boot-export/spring-boot-export.artifacts.ts:643-685 | the value of a column in a request: a variable, null or an example |
| PostmanVariables.CaptureColumns | src/modules/generation/spring-boot-export/spring-boot-export.artifacts.ts:727-759 | every resource captures its identifier and every column that any foreign key points at |
| PostmanVariables.SafeExactlyWhenNeedsComeFirst | src/modules/generation/spring-boot-export/spring-boot-export.artifacts.ts:614-685 | for any order: every variable read was captured by an earlier creation exactly when each creation comes after those it takes values from |
| Dependencies.OrderPlacesDependencies | src/modules/generation/spring-boot-export/spring-boot-export.artifacts.ts:761-788 | on any input a dependency comes first exactly when it leads to no cycle or has the smaller id |
| PostmanOrder.CollectionsAreSafeExactly | src/modules/generation/spring-boot-export/spring-boot-export.artifacts.ts:481-539 | whatever the cycles: every variable read was captured before exactly when no creation takes a value from itself, or from a resource that leads to a cycle and has the larger id |
| PostmanOrder.AcyclicCollectionsAreSafe | src/modules/generation/spring-boot-export/spring-boot-export.artifacts.ts:481-539 | without a cycle that is so exactly when no resource has a required reference to itself in its body |
| PostmanOrder.CleanupRunsChildToParentExactly | src/modules/generation/spring-boot-export/spring-boot-export.artifacts.ts:486-516 | a resource is deleted before another it refers to exactly when that one leads to no cycle or has the smaller id |
| PostmanOrder.CleanupRunsChildToParent | src/modules/generation/spring-boot-export/spring-boot-export.artifacts.ts:511-511 | without cycles everything is deleted before anything else it refers to |
| PostmanOrder.OpenedCyclesMayStillFail | src/modules/generation/spring-boot-export/spring-boot-export.artifacts.ts:513-516 | an instance: all cycles nullable, and a resource that waits for one of a cycle is created first |
| RelationalContract.ValidateRelationalModelSemantics | src/modules/generation/relational-model/relational-model.validator.ts:53-401 | no issue is found exactly when the model is consistent |
| RelationalContract.CheckForeignKey | src/modules/generation/relational-model/relational-model.validator.ts:223-327 | a foreign key has no issue exactly when its columns, its target, its key and its types fit |
| RelationalContract.CheckInheritance | src/modules/generation/relational-model/relational-model.validator.ts:329-398 | a subclass has no issue exactly when parent, key, chain and join fit |
| InheritanceWalks.ChainCheckDecides | src/modules/generation/relational-model/relational-model.validator.ts:418-440 | given the parents, the check passes exactly when the walk ends at a declared root |
| InheritanceWalks.RootTable | src/modules/generation/spring-boot/spring-boot.generator.ts:2115-2143 | the loop ends at the table where the walk ends, or reports a cycle or a missing parent |
| InheritanceWalks.EntityHierarchyTables | src/modules/generation/spring-boot/spring-boot.generator.ts:2254-2273 | the loop gives the walk from the root down |
| InheritanceWalks.HierarchyTables | src/modules/generation/spring-boot-export/spring-boot-export.artifacts.ts:971-998 | so does the loop of the artifacts, except that a subclass without a parent id ends it |
| InheritanceWalks.WalksEndAtRoots | src/modules/generation/relational-model/relational-model.validator.ts:329-398 | in a consistent model every walk ends, both generators walk the same tables, and a subclass has a declared root |
| InheritanceWalks.RootKeyIsTheTableKey | src/modules/generation/spring-boot/spring-boot.generator.ts:2160-2195 | in a consistent model the key columns of a table and of its root agree in number and PostgreSQL type |
| GeneralizationOrder.DepthSearch.Depth | src/modules/generation/relational-model/relational-model.transformer.ts:1058-1079 | on acyclic generalizations the memoised depth is the length of the longest chain of parents |
| GeneralizationOrder.SortedGeneralizations | src/modules/generation/relational-model/relational-model.transformer.ts:1048-1086 | all generalizations, by depth of the parent; without a cycle each parent's comes before its children's |
| JoinedIdentifiers.BuildAllGeneralizations | src/modules/generation/relational-model/relational-model.transformer.ts:1011-1014 | sorted and joined, every subclass follows its parent at the end |
| JoinedIdentifiers.EverySubclassFollowsItsParent | src/modules/generation/relational-model/relational-model.transformer.ts:1137-1191 | with parents first every join stays good to the end: types, plain key, parent, and a cascading foreign key from key to key |
| JoinedIdentifiers.SubclassesCarryTheTypeOfTheirRoot | src/modules/generation/relational-model/relational-model.transformer.ts:1137-1152 | every subclass key has the Java and PostgreSQL type its root had from the beginning, and is neither generated nor defaulted |
| JoinedIdentifiers.OneParentOnly | src/modules/generation/relational-model/relational-model.transformer.ts:1110-1118 | a second parent is refused |
| JoinedTables.JoinedTablesPassTheCheckExactly | src/modules/generation/relational-model/relational-model.validator.ts:424-439 | every joined table passes the validator's check of inheritance exactly when no class inherits from a parentless association class |
| JoinedTables.InheritingFromAnAssociationClassFails | src/modules/generation/relational-model/relational-model.transformer.ts:1088-1191 | an instance: a class that inherits from an association class is joined and then fails the check |
| RequestSchemas.TypesAgreeExactly | src/modules/generation/spring-boot/spring-boot.generator.ts:2310-2367 | a Java type the generator accepts is the one the artifacts show exactly when no path of foreign keys closes at an unsupported type; the only-if half needs `FallbacksAreSupported` |
| SchemasAgree.AcceptedNamesAreDistinct | src/modules/generation/spring-boot/spring-boot.generator.ts:2213-2252 | the generator accepts only entities whose property names all differ |
| SchemasAgree.MarkedIsDeclared | src/modules/generation/relational-model/relational-model.validator.ts:152-187 | a column is marked as key exactly when the key declares it |
| SchemasAgree.RequestSchemaHasTheShapeOfTheDto | src/modules/generation/spring-boot-export/spring-boot-export.artifacts.ts:352-377 | for every consistent model both generators accept: the same properties in the same order and the same required list |
| SchemasAgree.RequiredMeansNeeded | src/modules/generation/spring-boot-export/spring-boot-export.artifacts.ts:352-377 | in both schemas a property is required exactly when its column takes no null and has no default, and the id exactly when the key of the root is not generated |
| SchemasAgree.PropertiesAreTheOtherColumns | src/modules/generation/spring-boot/spring-boot.generator.ts:2213-2252 | the properties are exactly the columns of the hierarchy that are not part of their table's key |
| SchemasAgree.RequestSchemaIsTheDtoExactly | src/modules/generation/spring-boot-export/spring-boot-export.artifacts.ts:1041-1073 | the types are the same, too, exactly when no path of foreign keys from a shown column closes at an unsupported type; the only-if half needs `FallbacksAreSupported` |
| SchemasAgree.RequestSchemaIsTheDto | src/modules/generation/spring-boot-export/spring-boot-export.artifacts.ts:890-901 | in particular without cycles of column foreign keys, or with supported types only |
| RefreshRotation.SessionStore.RotateRefreshToken | src/modules/auth/auth.service.ts:265-293 | the row moves to the next token and sequence exactly when token and sequence match and the session is live |
| RefreshRotation.SessionStore.RevokeReplayedSession | src/modules/auth/auth.service.ts:295-322 | the session is revoked exactly when it has moved past the token |
| RefreshRotation.SessionStore.Logout | src/modules/auth/auth.service.ts:140-171 | the session is revoked exactly when the token was issued for it |
| RefreshRotation.SessionsOnlyMoveOn | src/modules/auth/auth.service.ts:265-293 | over every run the sequence never goes back and revocation is permanent |
| RefreshRotation.EverySequenceRotatesOnce | src/modules/auth/auth.service.ts:105-138 | the tokens rotated are those issued for the sequences passed, each once |
| RefreshRotation.ReplaysEndInRevocation | src/modules/auth/auth.service.ts:125-128 | a refused refresh whose token had been rotated by the time of its second statement leaves the session revoked |
| RefreshRotation.PresentedReplaysStayReplays | src/modules/auth/auth.service.ts:105-128 | a token that was rotated when presented counts as rotated until the refresh ends |
| RefreshRotation.OnlyRotatedTokensAreReplays | src/modules/auth/auth.service.ts:301-312 | of the tokens issued exactly the rotated ones count as replays |
| RefreshRotation.CurrentTokenRotates | src/modules/auth/auth.service.ts:265-293 | the newest token of a live session rotates to the next sequence |
| RefreshRotation.LoggingOutRevokes | src/modules/auth/auth.service.ts:140-171 | in every run, logging out with any token issued so far leaves the session revoked |
| RefreshRotation.UnknownTokensLogNobodyOut | src/modules/auth/auth.service.ts:140-171 | in every run, logging out with a token that has not been issued yet changes nothing |

## Left out

- XMI: the tokenizer, character encoding, white-space text, and the byte, depth and time limits of the tokenizer; the
  model starts from tags. Error codes are not told apart.
- XMI: what the exporter never writes: packages, realizations and models inside models, member ends and navigable ends as
  elements, case folding of keywords, and the tolerances for documents of Enterprise Architect.
- XMI: raw members are attached when their tag closes, where the parser attaches them at once and fills them by alias.
- Gateway: joining and leaving rooms, presence, authorisation of recipients, rate limits; a room is who is sent to.
- Gateway: that authorisation is checked again before a broadcast reaches each socket.
- Lock store: change events, and the clearing of timers; a timer may fire at any time and must then do no harm.
- Documents: the transactions' row locks; a reader and the writer after it are separate steps instead.
- Documents: renaming a document.
- Documents: other server processes; queue and leases live in the memory of one.
- Relational contract: the clauses about physical and constraint names and about the pairing of Java and PostgreSQL types.
- Transformer: attributes, collections and associations, whose reference columns are built before subclass keys are
  retyped and may then fail the contract; only the generalizations are modelled.
- Transformer: collisions of generated constraint names.
- Generator: the text templates for Java, SQL and Maven.
- Collection: the texts of requests and scripts; a request is what it reads, captures and names next.
- StableJson: values that JSON does not have (undefined, functions), which are refused.
- Sessions: deleting a session row, and users; access tokens.
- Shutdown paths, which clear all state on purpose.
- Presence, quotas, handshake limits and rate limiters: simpler cases of the queue and of the lock store.
- LockStore.CollaborationLockStore.Acquire: asks for ids without a colon, which is what makes the keys of the socket index
  splittable; the schemas guarantee it.
- XmiRoundTrip.RoundTrip: equality of the projections is stated when the digests of classifier ids do not collide across
  written and canonical forms, because the projection finds classifiers by id.
- CommandExecutor.Execute: compares documents as values; the code compares their texts, so that a command which only
  reorders the fields of an object counts as a change there and is refused here.
- XmiMachine.ParseXmi: the language is the exporter's, without packages, vendor tolerances and tokenizer limits.
- XmiMachine.Parser.OpenTag: the same.
- XmiMachine.Parser.CloseTag: attaches a member when it closes, where the code attaches it when it opens.
- DocumentLog.ReplacingKeeps: the lock check of a replacement is not part of the log; `LockedCommits` has it.
- RelationalContract.ValidateRelationalModelSemantics: leaves out the clauses on physical and constraint names and on pairs
  of Java and PostgreSQL types.
- RelationalContract.CheckForeignKey: leaves out the clause on repeated constraint names.
- JoinedIdentifiers.BuildState.BuildGeneralization: leaves out the refusal of colliding constraint names.
- RefreshRotation.ReplaysEndInRevocation: says nothing about a refresh that is interrupted between its two statements,
  which leaves the session as it is.
