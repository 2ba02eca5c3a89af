/** The gateway's handlers, which update its maps and sets for all documents. */
module Gateway {

  import opened Wrappers
  import opened Sequences
  import opened Uml
  import opened MutationQueue
  import D = Delivery
  import R = MemberRevocation

  datatype DocumentChange = DocumentDeleted(documentId: Id) | DocumentReplaced(documentId: Id, revision: nat)

  function WorkOf(e: Entry): D.Work { if e.priority.Critical? then D.CriticalWork else D.Mutation }

  function WorkOfEntry(): Entry -> D.Work { (e: Entry) => WorkOf(e) }

  function WorkIn(line: seq<Entry>): seq<D.Work> { Map(WorkOfEntry(), line) }

  class CollaborationGateway {
    const queue: DocumentMutationQueue
    var deletedDocumentIds: set<Id>
    var pendingResyncChanges: map<Id, D.Resync>
    var pendingMemberEvictionsByDocument: map<Id, R.Evictions>
    var pendingMemberRevocationDocuments: map<nat, R.Pending>
    var revokedProjectMemberKeys: map<R.Key, nat>
    var scheduledCriticalDocumentIds: set<Id>
    var criticalRetryTimers: set<Id>
    var pendingDeliveryRecoveryDocumentIds: set<Id>
    /** Critical work that has ended, with its failure, and whose last handler is still to run. */
    var endings: map<Id, bool>
    var stamps: nat
    var issuedRevocations: nat

    constructor (queue: DocumentMutationQueue)
      requires queue.Valid()
      ensures this.queue == queue && Valid() && Revocations() == R.NONE_REVOKED
      ensures forall id :: MemoryOf(id) == D.FORGOTTEN && EndingOf(id) == None
    {
      this.queue := queue;
      deletedDocumentIds, pendingResyncChanges, pendingMemberEvictionsByDocument := {}, map[], map[];
      pendingMemberRevocationDocuments, revokedProjectMemberKeys := map[], map[];
      scheduledCriticalDocumentIds, criticalRetryTimers, pendingDeliveryRecoveryDocumentIds := {}, {}, {};
      endings, stamps, issuedRevocations := map[], 0, 0;
    }

    ghost predicate Valid()
      reads this, queue
    {
      queue.Valid()
    }

    // What the fields say of one document, and of the members.

    function ResyncOf(id: Id): Option<D.Resync>
      reads this
    {
      if id in pendingResyncChanges then Some(pendingResyncChanges[id]) else None
    }

    function EndingOf(id: Id): Option<bool>
      reads this
    {
      if id in endings then Some(endings[id]) else None
    }

    function MemoryOf(id: Id): D.Memory
      reads this
    {
      D.Memory(id in deletedDocumentIds, ResyncOf(id), id in pendingMemberEvictionsByDocument,
               id in pendingDeliveryRecoveryDocumentIds, id in scheduledCriticalDocumentIds, id in criticalRetryTimers)
    }

    /** The document as the delivery protocol sees it; what the gateway does not hold is left at its start. */
    ghost function View(id: Id): D.State
      reads this, queue
    {
      D.START.(memory := MemoryOf(id), line := WorkIn(queue.Line(id)), ending := EndingOf(id))
    }

    function Revocations(): R.Revocations
      reads this
    {
      R.Revocations(revokedProjectMemberKeys, pendingMemberRevocationDocuments, pendingMemberEvictionsByDocument,
          issuedRevocations)
    }

    // Scheduling.

    method ScheduleCriticalDocumentWork(id: Id)
      requires Valid()
      modifies this`scheduledCriticalDocumentIds, this`endings, queue
      ensures Valid()
      ensures View(id) == D.Schedule(queue.capacity, old(View(id)))
      ensures forall other :: other != id ==> View(other) == old(View(other))
    {
      if id in scheduledCriticalDocumentIds || id in criticalRetryTimers { return; }
      scheduledCriticalDocumentIds := scheduledCriticalDocumentIds + {id};
      ghost var line := queue.Line(id);
      var ticket := queue.Enqueue(id, Critical);
      if ticket.None? {
        endings := endings[id := true];
      } else {
        MapAppend(WorkOfEntry(), line, [Entry(ticket.value, Critical)]);
        assert WorkIn([Entry(ticket.value, Critical)]) == [D.CriticalWork];
      }
    }

    /** The last handler of critical work. */
    method CriticalWorkEnded(id: Id)
      requires Valid() && id in endings
      modifies this`scheduledCriticalDocumentIds, this`criticalRetryTimers, this`endings, queue
      ensures Valid()
      ensures View(id) == D.Ended(queue.capacity, old(View(id)), old(endings[id]))
      ensures forall other :: other != id ==> View(other) == old(View(other))
    {
      var failed := endings[id];
      endings := endings - {id};
      scheduledCriticalDocumentIds := scheduledCriticalDocumentIds - {id};
      if !HasCriticalDocumentWork(id) { return; }
      if failed {
        criticalRetryTimers := criticalRetryTimers + {id};
        return;
      }
      ScheduleCriticalDocumentWork(id);
    }

    predicate HasCriticalDocumentWork(id: Id)
      reads this
      ensures HasCriticalDocumentWork(id) <==> D.HasCriticalWork(MemoryOf(id))
    {
      || id in deletedDocumentIds || id in pendingMemberEvictionsByDocument
      || id in pendingResyncChanges || id in pendingDeliveryRecoveryDocumentIds
    }

    method RetryTimerFired(id: Id)
      requires Valid() && id in criticalRetryTimers
      modifies this`scheduledCriticalDocumentIds, this`criticalRetryTimers, this`endings, queue
      ensures Valid()
      ensures View(id) == D.TimerFired(queue.capacity, old(View(id)))
      ensures forall other :: other != id ==> View(other) == old(View(other))
    {
      criticalRetryTimers := criticalRetryTimers - {id};
      if HasCriticalDocumentWork(id) { ScheduleCriticalDocumentWork(id); }
    }

    // Events.

    method HandleExternalDocumentChange(change: DocumentChange)
      requires Valid()
      modifies this`deletedDocumentIds, this`pendingResyncChanges, this`stamps,
               this`scheduledCriticalDocumentIds, this`endings, queue
      ensures Valid()
      ensures var id, before := change.documentId, old(View(change.documentId));
        View(id) ==
          if change.DocumentDeleted? then D.DeletionNoted(queue.capacity, before)
          else if before.memory.deleted then before
          else D.Schedule(queue.capacity,
                          before.(memory := D.NotedReplacement(before.memory, D.Resync(old(stamps), change.revision))))
      ensures forall other :: other != change.documentId ==> View(other) == old(View(other))
    {
      var id := change.documentId;
      if change.DocumentDeleted? {
        NoteDeletion(id);
        return;
      }
      if id in deletedDocumentIds { return; }
      pendingResyncChanges := pendingResyncChanges[id := D.Resync(stamps, change.revision)];
      stamps := stamps + 1;
      ScheduleCriticalDocumentWork(id);
    }

    method NoteDeletion(id: Id)
      requires Valid()
      modifies this`deletedDocumentIds, this`pendingResyncChanges, this`scheduledCriticalDocumentIds, this`endings,
          queue
      ensures Valid()
      ensures View(id) == D.DeletionNoted(queue.capacity, old(View(id)))
      ensures forall other :: other != id ==> View(other) == old(View(other))
    {
      deletedDocumentIds := deletedDocumentIds + {id};
      pendingResyncChanges := pendingResyncChanges - {id};
      ScheduleCriticalDocumentWork(id);
    }

    method NoteMemberEviction(id: Id, e: R.Eviction)
      requires Valid()
      modifies this`pendingMemberEvictionsByDocument, this`scheduledCriticalDocumentIds, this`endings, queue
      ensures Valid()
      ensures pendingMemberEvictionsByDocument ==
              old(pendingMemberEvictionsByDocument)[id :=
                  R.EvictionsAt(old(pendingMemberEvictionsByDocument), id)[e.key := e]]
      ensures View(id) == D.EvictionNoted(queue.capacity, old(View(id)))
      ensures forall other :: other != id ==> View(other) == old(View(other))
    {
      var evictions := if id in pendingMemberEvictionsByDocument then pendingMemberEvictionsByDocument[id] else map[];
      pendingMemberEvictionsByDocument := pendingMemberEvictionsByDocument[id := evictions[e.key := e]];
      ScheduleCriticalDocumentWork(id);
    }

    method NoteRecovery(id: Id)
      requires Valid()
      modifies this`pendingDeliveryRecoveryDocumentIds, this`scheduledCriticalDocumentIds, this`endings, queue
      ensures Valid()
      ensures View(id) == D.RecoveryNoted(queue.capacity, old(View(id)))
      ensures forall other :: other != id ==> View(other) == old(View(other))
    {
      pendingDeliveryRecoveryDocumentIds := pendingDeliveryRecoveryDocumentIds + {id};
      ScheduleCriticalDocumentWork(id);
    }

    method HandleMemberGranted(key: R.Key)
      requires Valid()
      modifies this`pendingMemberRevocationDocuments, this`revokedProjectMemberKeys
      ensures Valid()
      ensures Revocations() == R.Granted(old(Revocations()), key)
      ensures forall id :: View(id) == old(View(id))
    {
      if key in revokedProjectMemberKeys {
        pendingMemberRevocationDocuments := pendingMemberRevocationDocuments - {revokedProjectMemberKeys[key]};
      }
      revokedProjectMemberKeys := revokedProjectMemberKeys - {key};
    }

    /** The new revocation takes the place of an earlier one of the same member. */
    method Revoke(key: R.Key, documentIds: set<Id>) returns (revocation: nat)
      modifies this`pendingMemberRevocationDocuments, this`revokedProjectMemberKeys, this`issuedRevocations
      ensures revocation == old(issuedRevocations) && issuedRevocations == revocation + 1
      ensures documentIds == {} ==>
                && revokedProjectMemberKeys == R.Granted(old(Revocations()), key).revoked
                && pendingMemberRevocationDocuments == R.Granted(old(Revocations()), key).pending
      ensures documentIds != {} ==>
                && revokedProjectMemberKeys == R.Granted(old(Revocations()), key).revoked[key := revocation]
                && pendingMemberRevocationDocuments ==
                   R.Granted(old(Revocations()), key).pending[revocation := R.Pending(key, documentIds)]
    {
      if key in revokedProjectMemberKeys {
        pendingMemberRevocationDocuments := pendingMemberRevocationDocuments - {revokedProjectMemberKeys[key]};
      }
      revocation := issuedRevocations;
      issuedRevocations := issuedRevocations + 1;
      revokedProjectMemberKeys := revokedProjectMemberKeys[key := revocation];
      if documentIds == {} {
        revokedProjectMemberKeys := revokedProjectMemberKeys - {key};
      } else {
        pendingMemberRevocationDocuments := pendingMemberRevocationDocuments[revocation := R.Pending(key, documentIds)];
      }
    }

    method HandleMemberRemoved(key: R.Key, userId: Id, documentIds: set<Id>)
      requires Valid()
      modifies this`pendingMemberRevocationDocuments, this`revokedProjectMemberKeys,
          this`pendingMemberEvictionsByDocument,
               this`issuedRevocations, this`scheduledCriticalDocumentIds, this`endings, queue
      ensures Valid()
      ensures Revocations() == R.Removed(old(Revocations()), key, userId, documentIds)
      ensures forall id :: View(id) == (if id in documentIds then D.EvictionNoted(queue.capacity, old(View(id)))
                  else old(View(id)))
    {
      var revocation := Revoke(key, documentIds);
      assert forall id :: View(id) == old(View(id));
      if documentIds == {} { return; }
      NoteMemberEvictions(documentIds, R.Eviction(key, userId, revocation));
    }

    method NoteMemberEvictions(documentIds: set<Id>, e: R.Eviction)
      requires Valid()
      modifies this`pendingMemberEvictionsByDocument, this`scheduledCriticalDocumentIds, this`endings, queue
      ensures Valid()
      ensures pendingMemberEvictionsByDocument == R.WithEvictions(old(pendingMemberEvictionsByDocument), e, documentIds)
      ensures forall id :: View(id) == (if id in documentIds then D.EvictionNoted(queue.capacity, old(View(id)))
                  else old(View(id)))
    {
      ghost var slots, before := queue.capacity, pendingMemberEvictionsByDocument;
      ghost var noted: set<Id> := {};
      var rest := documentIds;
      R.WithNoEvictions(before, e);
      while rest != {}
        invariant rest !! noted && rest + noted == documentIds && Valid()
        invariant pendingMemberEvictionsByDocument == R.WithEvictions(before, e, noted)
        invariant forall id :: View(id)
                    == (if id in noted then D.EvictionNoted(slots, old(View(id))) else old(View(id)))
        decreases rest
      {
        var id :| id in rest;
        R.WithOneMore(before, e, noted, id);
        NoteMemberEviction(id, e);
        noted := noted + {id};
        rest := rest - {id};
      }
      assert noted == documentIds;
    }

    method HandleProjectDeleted(documentIds: set<Id>)
      requires Valid()
      modifies this`deletedDocumentIds, this`pendingResyncChanges, this`scheduledCriticalDocumentIds, this`endings,
          queue
      ensures Valid()
      ensures forall id :: View(id) == (if id in documentIds then D.DeletionNoted(queue.capacity, old(View(id)))
                  else old(View(id)))
    {
      ghost var slots := queue.capacity;
      var rest := documentIds;
      while rest != {}
        invariant rest <= documentIds && Valid()
        invariant forall id :: View(id)
                    == (if id !in rest && id in documentIds then D.DeletionNoted(slots, old(View(id)))
                        else old(View(id)))
        decreases rest
      {
        var id :| id in rest;
        NoteDeletion(id);
        rest := rest - {id};
      }
    }

    /** The documents listed with undelivered operations. */
    method RecoverUndeliveredOperations(documentIds: set<Id>)
      requires Valid()
      modifies this`pendingDeliveryRecoveryDocumentIds, this`scheduledCriticalDocumentIds, this`endings, queue
      ensures Valid()
      ensures forall id :: View(id) == (if id in documentIds then D.RecoveryNoted(queue.capacity, old(View(id)))
                  else old(View(id)))
    {
      ghost var slots := queue.capacity;
      var rest := documentIds;
      while rest != {}
        invariant rest <= documentIds && Valid()
        invariant forall id :: View(id)
                    == (if id !in rest && id in documentIds then D.RecoveryNoted(slots, old(View(id)))
                        else old(View(id)))
        decreases rest
      {
        var id :| id in rest;
        NoteRecovery(id);
        rest := rest - {id};
      }
    }

    // Critical work between its awaits.

    /** Critical work begins by taking the evictions of its document. */
    method TakeEvictions(id: Id) returns (evictions: R.Evictions)
      modifies this`pendingMemberEvictionsByDocument
      ensures evictions == R.EvictionsAt(old(Revocations()).evictions, id)
      ensures Revocations() == R.Taken(old(Revocations()), id)
      ensures forall other :: View(other) ==
                (if other == id then old(View(id)).(memory := old(View(id)).memory.(evicting := false))
                    else old(View(other)))
    {
      evictions := if id in pendingMemberEvictionsByDocument then pendingMemberEvictionsByDocument[id] else map[];
      pendingMemberEvictionsByDocument := pendingMemberEvictionsByDocument - {id};
    }

    method CompleteMemberEvictions(id: Id, evictions: R.Evictions) returns (ghost taken: seq<R.Eviction>)
      requires forall key :: key in evictions ==> evictions[key].key == key
      modifies this`pendingMemberRevocationDocuments, this`revokedProjectMemberKeys
      ensures R.Lists(taken, evictions) && Revocations() == R.Completed(old(Revocations()), id, taken)
      ensures forall other :: View(other) == old(View(other))
    {
      taken := [];
      var rest := evictions.Keys;
      while rest != {}
        invariant rest <= evictions.Keys
        invariant forall e :: e in taken <==> e.key in evictions.Keys - rest && evictions[e.key] == e
        invariant Revocations() == R.Completed(old(Revocations()), id, taken)
        decreases rest
      {
        var key :| key in rest;
        var e := evictions[key];
        ghost var more := taken + [e];
        assert more[..|more| - 1] == taken;
        CompleteOne(id, e);
        taken := more;
        rest := rest - {key};
      }
    }

    method CompleteOne(id: Id, e: R.Eviction)
      modifies this`pendingMemberRevocationDocuments, this`revokedProjectMemberKeys
      ensures Revocations() == R.CompletedOne(old(Revocations()), id, e)
    {
      if e.revocation !in pendingMemberRevocationDocuments { return; }
      var pending := pendingMemberRevocationDocuments[e.revocation];
      var rest := pending.documentIds - {id};
      pendingMemberRevocationDocuments :=
          pendingMemberRevocationDocuments[e.revocation := pending.(documentIds := rest)];
      if rest != {} { return; }
      pendingMemberRevocationDocuments := pendingMemberRevocationDocuments - {e.revocation};
      if pending.key in revokedProjectMemberKeys && revokedProjectMemberKeys[pending.key] == e.revocation {
        revokedProjectMemberKeys := revokedProjectMemberKeys - {pending.key};
      }
    }

    /** After the sockets of a deleted document are gone. */
    method DeletedDocumentEvicted(id: Id)
      modifies this`deletedDocumentIds, this`pendingDeliveryRecoveryDocumentIds
      ensures forall other :: View(other) ==
                (if other == id then old(View(id)).(memory := D.DeletedEvicted(old(View(id))).memory)
                    else old(View(other)))
    {
      deletedDocumentIds := deletedDocumentIds - {id};
      pendingDeliveryRecoveryDocumentIds := pendingDeliveryRecoveryDocumentIds - {id};
    }

    /** After the database has answered whether operations are pending; returns what is remembered to be announced. */
    method PendingAnswered(id: Id, pending: bool) returns (change: Option<D.Resync>)
      modifies this`pendingDeliveryRecoveryDocumentIds
      ensures change == ResyncOf(id)
      ensures forall other :: View(other) ==
                (if other == id then old(View(id)).(memory := D.AskedContinues(old(View(id)), pending).memory)
                    else old(View(other)))
    {
      if !pending { pendingDeliveryRecoveryDocumentIds := pendingDeliveryRecoveryDocumentIds - {id}; }
      change := if id in pendingResyncChanges then Some(pendingResyncChanges[id]) else None;
    }

    /** After the broadcast: only the announcement that was there before it is forgotten. */
    method BroadcastReturned(id: Id, change: Option<D.Resync>, revision: nat, pending: bool)
      modifies this`pendingResyncChanges
      ensures forall other :: View(other) ==
                (if other == id then old(View(id)).(memory :=
                    D.BroadcastContinues(old(View(id)), change, revision, pending).memory) else old(View(other)))
    {
      if change.Some? && id in pendingResyncChanges && pendingResyncChanges[id] == change.value {
        pendingResyncChanges := pendingResyncChanges - {id};
      }
    }

    method OperationsMarked(id: Id)
      modifies this`pendingDeliveryRecoveryDocumentIds
      ensures forall other :: View(other) ==
                (if other == id then old(View(id)).(memory := old(View(id)).memory.(recovery := false))
                    else old(View(other)))
    {
      pendingDeliveryRecoveryDocumentIds := pendingDeliveryRecoveryDocumentIds - {id};
    }
  }
}
