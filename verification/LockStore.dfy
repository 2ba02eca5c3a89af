/** Leases on elements: what each operation does to them, and the store that keeps them in two indexes. */
module LockStore {

  import opened Wrappers
  import opened Uml

  datatype Lock = Lock(documentId: Id, elementId: Id, userId: Id, socketId: Id, leaseId: nat, expiresAt: nat)

  /** A document and one of its elements. */
  type Place = (Id, Id)

  type Leases = map<Place, Lock>

  // The operations on leases.

  datatype Request = Request(documentId: Id, elementId: Id, userId: Id, socketId: Id)

  function PlaceOf(r: Request): Place { (r.documentId, r.elementId) }

  /** The leases of a document that have not expired, and all leases of other documents. */
  function Live(l: Leases, documentId: Id, now: nat): Leases {
    map p | p in l && (p.0 == documentId ==> now < l[p].expiresAt) :: l[p]
  }

  predicate Owns(l: Leases, r: Request) {
    PlaceOf(r) in l && l[PlaceOf(r)].userId == r.userId && l[PlaceOf(r)].socketId == r.socketId
  }

  predicate Refuses(l: Leases, r: Request) { PlaceOf(r) in l && !Owns(l, r) }

  function Renewed(l: Leases, p: Place, until: nat): Leases
    requires p in l
  {
    l[p := l[p].(expiresAt := until)]
  }

  function Acquired(l: Leases, r: Request, ttl: nat, now: nat, leaseId: nat): Leases {
    var live := Live(l, r.documentId, now);
    if Refuses(live, r) then live
    else if PlaceOf(r) in live then Renewed(live, PlaceOf(r), now + ttl)
    else live[PlaceOf(r) := Lock(r.documentId, r.elementId, r.userId, r.socketId, leaseId, now + ttl)]
  }

  predicate Presents(l: Leases, r: Request, leaseId: nat) { Owns(l, r) && l[PlaceOf(r)].leaseId == leaseId }

  function RenewedBy(l: Leases, r: Request, leaseId: nat, ttl: nat, now: nat): Leases {
    var live := Live(l, r.documentId, now);
    if Presents(live, r, leaseId) then Renewed(live, PlaceOf(r), now + ttl) else live
  }

  function ReleasedBy(l: Leases, r: Request, leaseId: nat, now: nat): Leases {
    var live := Live(l, r.documentId, now);
    if Presents(live, r, leaseId) then live - {PlaceOf(r)} else live
  }

  function WithoutSocket(l: Leases, socketId: Id): Leases { map p | p in l && l[p].socketId != socketId :: l[p] }

  function WithoutSocketIn(l: Leases, socketId: Id, documentId: Id): Leases {
    map p | p in l && !(p.0 == documentId && l[p].socketId == socketId) :: l[p]
  }

  function Reconciled(l: Leases, documentId: Id, active: set<Id>, now: nat): Leases {
    var live := Live(l, documentId, now);
    map p | p in live && (p.0 == documentId ==> p.1 in active) :: live[p]
  }

  function TimerFired(l: Leases, p: Place, now: nat): Leases {
    if p in l && l[p].expiresAt <= now then l - {p} else l
  }

  datatype Operation =
    | Acquire(request: Request, ttl: nat, newLease: nat)
    | Renew(request: Request, leaseId: nat, ttl: nat)
    | Release(request: Request, leaseId: nat)
    | ReleaseSocket(socketId: Id)
    | ReleaseSocketIn(socketId: Id, documentId: Id)
    | Reconcile(documentId: Id, active: set<Id>)
    | Fire(place: Place)
    | Query(documentId: Id)

  function Apply(l: Leases, op: Operation, now: nat): Leases {
    match op
    case Acquire(request, ttl, newLease) => Acquired(l, request, ttl, now, newLease)
    case Renew(request, leaseId, ttl) => RenewedBy(l, request, leaseId, ttl, now)
    case Release(request, leaseId) => ReleasedBy(l, request, leaseId, now)
    case ReleaseSocket(socketId) => WithoutSocket(l, socketId)
    case ReleaseSocketIn(socketId, documentId) => WithoutSocketIn(l, socketId, documentId)
    case Reconcile(documentId, active) => Reconciled(l, documentId, active, now)
    case Fire(place) => TimerFired(l, place, now)
    case Query(documentId) => Live(l, documentId, now)
  }

  // A lease belongs to its holder while it lives.

  /** An operation that is neither made for the holder of the lock nor drops its element. */
  predicate IsForeign(lock: Lock, op: Operation) {
    match op
    case Acquire(request, _, _) => request.socketId != lock.socketId || request.userId != lock.userId
    case Renew(request, _, _) => request.socketId != lock.socketId || request.userId != lock.userId
    case Release(request, _) => request.socketId != lock.socketId || request.userId != lock.userId
    case ReleaseSocket(socketId) => socketId != lock.socketId
    case ReleaseSocketIn(socketId, _) => socketId != lock.socketId
    case Reconcile(documentId, active) => documentId == lock.documentId ==> lock.elementId in active
    case _ => true
  }

  lemma ForeignOperationsKeepALiveLease(l: Leases, p: Place, op: Operation, now: nat)
    requires p in l && p == (l[p].documentId, l[p].elementId) && now < l[p].expiresAt && IsForeign(l[p], op)
    ensures p in Apply(l, op, now) && Apply(l, op, now)[p] == l[p]
  {
  }

  datatype Event = Event(op: Operation, now: nat)

  function Run(l: Leases, events: seq<Event>): Leases
    decreases |events|
  {
    if events == [] then l else Run(Apply(l, events[0].op, events[0].now), events[1..])
  }

  /**
   Until it expires, nobody but its holder can change or remove a lease, whatever the others do and in whatever
   order.
   */
  lemma {:induction false} LiveLeaseIsExclusive(l: Leases, p: Place, events: seq<Event>)
    requires p in l && p == (l[p].documentId, l[p].elementId)
    requires forall i :: 0 <= i < |events| ==> events[i].now < l[p].expiresAt && IsForeign(l[p], events[i].op)
    ensures p in Run(l, events) && Run(l, events)[p] == l[p]
    decreases |events|
  {
    if events != [] {
      ForeignOperationsKeepALiveLease(l, p, events[0].op, events[0].now);
      LiveLeaseIsExclusive(Apply(l, events[0].op, events[0].now), p, events[1..]);
    }
  }

  // What a client gets.

  /** Somebody else than the client has a lease on the element that has not expired. */
  predicate HeldByAnother(l: Leases, r: Request, now: nat) {
    && PlaceOf(r) in l && now < l[PlaceOf(r)].expiresAt
    && (l[PlaceOf(r)].userId != r.userId || l[PlaceOf(r)].socketId != r.socketId)
  }

  /** The client itself has such a lease, with this id. */
  predicate HeldWith(l: Leases, r: Request, leaseId: nat, now: nat) {
    && PlaceOf(r) in l && now < l[PlaceOf(r)].expiresAt && l[PlaceOf(r)].leaseId == leaseId
    && l[PlaceOf(r)].userId == r.userId && l[PlaceOf(r)].socketId == r.socketId
  }

  /** The client has the element afterwards, for the whole time it asked for, exactly when nobody else has it. */
  lemma AcquiringSucceedsExactly(l: Leases, r: Request, ttl: nat, now: nat, newLease: nat)
    requires PlaceOf(r) in l ==> PlaceOf(r) == (l[PlaceOf(r)].documentId, l[PlaceOf(r)].elementId)
    ensures var next, p := Apply(l, Acquire(r, ttl, newLease), now), PlaceOf(r);
      && (Owns(next, r) <==> !HeldByAnother(l, r, now))
      && (Owns(next, r) ==>
            && next[p].expiresAt == now + ttl && (next[p].documentId, next[p].elementId) == p
            && next[p].leaseId == if p in l && now < l[p].expiresAt then l[p].leaseId else newLease)
      && (!Owns(next, r) ==> p in next && next[p] == l[p])
  {
  }

  /** Only who presents the id of a lease of its own that is alive gets a later end, and nobody loses anything alive. */
  lemma RenewingSucceedsExactly(l: Leases, r: Request, leaseId: nat, ttl: nat, now: nat, p: Place)
    requires p in l && now < l[p].expiresAt
    ensures var next := Apply(l, Renew(r, leaseId, ttl), now);
      && p in next
      && next[p] == if p == PlaceOf(r) && HeldWith(l, r, leaseId, now) then l[p].(expiresAt := now + ttl) else l[p]
  {
  }

  /** Only such a client takes a lease that is alive away, and only that one. */
  lemma ReleasingSucceedsExactly(l: Leases, r: Request, leaseId: nat, now: nat, p: Place)
    requires p in l && now < l[p].expiresAt
    ensures var next := Apply(l, Release(r, leaseId), now);
      && (p in next <==> !(p == PlaceOf(r) && HeldWith(l, r, leaseId, now)))
      && (p in next ==> next[p] == l[p])
  {
  }

  /**
   Whoever gets an element keeps it for the time asked for, whatever the others do meanwhile, and until then everybody
   else who asks for it is refused.
   */
  lemma AcquiredLeasesAreKept(l: Leases, r: Request, ttl: nat, now: nat, newLease: nat, events: seq<Event>,
      other: Request, moment: nat)
    requires !HeldByAnother(l, r, now)
    requires PlaceOf(r) in l ==> PlaceOf(r) == (l[PlaceOf(r)].documentId, l[PlaceOf(r)].elementId)
    requires forall e :: e in events ==>
               e.now < now + ttl && IsForeign(Lock(r.documentId, r.elementId, r.userId, r.socketId, 0, 0), e.op)
    requires PlaceOf(other) == PlaceOf(r) && (other.userId != r.userId || other.socketId != r.socketId)
    requires moment < now + ttl
    ensures var later := Run(Apply(l, Acquire(r, ttl, newLease), now), events);
      && Owns(later, r) && later[PlaceOf(r)].expiresAt == now + ttl && HeldByAnother(later, other, moment)
  {
    var next, p := Apply(l, Acquire(r, ttl, newLease), now), PlaceOf(r);
    AcquiringSucceedsExactly(l, r, ttl, now, newLease);
    forall i | 0 <= i < |events| ensures events[i].now < next[p].expiresAt && IsForeign(next[p], events[i].op) {
      assert events[i] in events;
    }
    LiveLeaseIsExclusive(next, p, events);
  }

  // Lock keys.

  function LockKey(documentId: Id, elementId: Id): string { documentId + ":" + elementId }

  /** The text before the first colon, and the text after it up to the second. */
  function SplitKey(key: string): (Id, Id) {
    var first := BeforeColon(key);
    if |first| == |key| then (first, "") else (first, BeforeColon(key[|first| + 1..]))
  }

  function BeforeColon(s: string): (r: string)
    ensures |r| <= |s|
  {
    if s == "" || s[0] == ':' then "" else [s[0]] + BeforeColon(s[1..])
  }

  predicate IsKeyPart(id: Id) { id != "" && ':' !in id }

  lemma {:induction false} BeforeColonOf(id: string, rest: string)
    requires ':' !in id && (rest == "" || rest[0] == ':')
    ensures BeforeColon(id + rest) == id
  {
    if id == "" {
      assert id + rest == rest;
    } else {
      assert (id + rest)[0] == id[0] && (id + rest)[1..] == id[1..] + rest;
      BeforeColonOf(id[1..], rest);
    }
  }

  /** Keys are split back into the ids they are made of, as long as those contain no colon. */
  lemma KeySplits(documentId: Id, elementId: Id)
    requires IsKeyPart(documentId) && IsKeyPart(elementId)
    ensures SplitKey(LockKey(documentId, elementId)) == (documentId, elementId)
  {
    var rest := ":" + elementId;
    assert LockKey(documentId, elementId) == documentId + rest;
    BeforeColonOf(documentId, rest);
    assert LockKey(documentId, elementId)[|documentId| + 1..] == elementId;
    BeforeColonOf(elementId, "");
    assert elementId + "" == elementId;
  }

  // The two indexes.

  type Nested = map<Id, map<Id, Lock>>

  type Keys = map<Id, set<string>>

  predicate HeldIn(n: Nested, p: Place) { p.0 in n && p.1 in n[p.0] }

  ghost predicate Represents(n: Nested, l: Leases) {
    forall p: Place :: (p in l <==> HeldIn(n, p)) && (HeldIn(n, p) ==> l[p] == n[p.0][p.1])
  }

  function LocksIn(n: Nested, documentId: Id): map<Id, Lock> { if documentId in n then n[documentId] else map[] }

  function KeysOf(k: Keys, socketId: Id): set<string> { if socketId in k then k[socketId] else {} }

  function Put(n: Nested, lock: Lock): Nested {
    n[lock.documentId := LocksIn(n, lock.documentId)[lock.elementId := lock]]
  }

  /** The last lock of a document takes the document with it. */
  function Drop(n: Nested, p: Place): Nested {
    if p.0 !in n then n
    else
      var rest := n[p.0] - {p.1};
      if rest == map[] then n - {p.0} else n[p.0 := rest]
  }

  function AddKey(k: Keys, socketId: Id, key: string): Keys { k[socketId := KeysOf(k, socketId) + {key}] }

  function DropKey(k: Keys, socketId: Id, key: string): Keys {
    if socketId !in k then k
    else
      var rest := k[socketId] - {key};
      if rest == {} then k - {socketId} else k[socketId := rest]
  }

  lemma RepresentsPut(n: Nested, l: Leases, lock: Lock)
    requires Represents(n, l)
    ensures Represents(Put(n, lock), l[(lock.documentId, lock.elementId) := lock])
  {
    var q, more := (lock.documentId, lock.elementId), Put(n, lock);
    forall p: Place
      ensures (p in l[q := lock] <==> HeldIn(more, p)) && (HeldIn(more, p) ==> l[q := lock][p] == more[p.0][p.1])
    {
      assert p in l <==> HeldIn(n, p);
    }
  }

  lemma RepresentsDrop(n: Nested, l: Leases, q: Place)
    requires Represents(n, l)
    ensures Represents(Drop(n, q), l - {q})
  {
    var less := Drop(n, q);
    forall p: Place ensures (p in l - {q} <==> HeldIn(less, p))
        && (HeldIn(less, p) ==> (l - {q})[p] == less[p.0][p.1]) {
      assert p in l <==> HeldIn(n, p);
      if p.0 == q.0 && q.0 in n && p != q && p.1 in n[q.0] { assert p.1 in n[q.0] - {q.1}; }
    }
  }

  ghost predicate Placed(l: Leases) {
    forall p :: p in l ==> IsKeyPart(p.0) && IsKeyPart(p.1) && l[p].documentId == p.0 && l[p].elementId == p.1
  }

  /** The key stands in the socket's set exactly when the socket holds the lease it names. */
  ghost predicate AgreesOn(l: Leases, k: Keys, socketId: Id, key: string) {
    var p := SplitKey(key);
    key in KeysOf(k, socketId) <==> p in l && key == LockKey(p.0, p.1) && l[p].socketId == socketId
  }

  ghost predicate Agree(l: Leases, k: Keys) { forall socketId, key :: AgreesOn(l, k, socketId, key) }

  ghost predicate NoEmptyEntries(n: Nested, k: Keys) {
    (forall d :: d in n ==> n[d] != map[]) && forall s :: s in k ==> k[s] != {}
  }

  lemma AgreeAfterAdding(l: Leases, k: Keys, lock: Lock)
    requires Agree(l, k) && IsKeyPart(lock.documentId) && IsKeyPart(lock.elementId)
               && (lock.documentId, lock.elementId) !in l
    ensures Agree(l[(lock.documentId, lock.elementId) := lock],
                AddKey(k, lock.socketId, LockKey(lock.documentId, lock.elementId)))
  {
    KeySplits(lock.documentId, lock.elementId);
    var more, keys := l[(lock.documentId, lock.elementId) := lock],
        AddKey(k, lock.socketId, LockKey(lock.documentId, lock.elementId));
    forall s, key ensures AgreesOn(more, keys, s, key) { assert AgreesOn(l, k, s, key); }
  }

  lemma AgreeAfterDropping(l: Leases, k: Keys, p: Place)
    requires Agree(l, k) && Placed(l) && p in l
    ensures Agree(l - {p}, DropKey(k, l[p].socketId, LockKey(p.0, p.1)))
  {
    KeySplits(p.0, p.1);
    var keys := DropKey(k, l[p].socketId, LockKey(p.0, p.1));
    forall s, key ensures AgreesOn(l - {p}, keys, s, key) { assert AgreesOn(l, k, s, key); }
  }

  lemma AgreeAfterRenewing(l: Leases, k: Keys, p: Place, until: nat)
    requires Agree(l, k) && p in l
    ensures Agree(Renewed(l, p, until), k)
  {
    forall s, key ensures AgreesOn(Renewed(l, p, until), k, s, key) { assert AgreesOn(l, k, s, key); }
  }

  /** As far as the loop over the document's leases has come. */
  ghost function LiveExcept(l: Leases, documentId: Id, now: nat, rest: set<Id>): Leases {
    map p | p in l && (p.0 == documentId && p.1 !in rest ==> now < l[p].expiresAt) :: l[p]
  }

  lemma ExceptAll(l: Leases, documentId: Id, now: nat, all: set<Id>)
    requires forall p :: p in l && p.0 == documentId ==> p.1 in all
    ensures LiveExcept(l, documentId, now, all) == l
  {
  }

  lemma ExceptNone(l: Leases, documentId: Id, now: nat)
    ensures LiveExcept(l, documentId, now, {}) == Live(l, documentId, now)
  {
  }

  lemma ExceptOneLess(l: Leases, documentId: Id, now: nat, rest: set<Id>, elementId: Id)
    requires elementId in rest && (documentId, elementId) in l
    ensures LiveExcept(l, documentId, now, rest - {elementId}) ==
            if l[(documentId, elementId)].expiresAt <= now
                then LiveExcept(l, documentId, now, rest) - {(documentId, elementId)}
            else LiveExcept(l, documentId, now, rest)
  {
    forall p | p in l ensures p.0 == documentId && p.1 == elementId <==> p == (documentId, elementId) { }
  }

  /** The leases of a document are the entries of its inner map. */
  lemma LocksAreLeases(n: Nested, l: Leases, documentId: Id)
    requires Represents(n, l)
    ensures forall e :: e in LocksIn(n, documentId) ==>
              (documentId, e) in l && l[(documentId, e)] == LocksIn(n, documentId)[e]
    ensures forall p :: p in l && p.0 == documentId ==> p.1 in LocksIn(n, documentId)
  {
    forall e | e in LocksIn(n, documentId)
      ensures (documentId, e) in l && l[(documentId, e)] == LocksIn(n, documentId)[e]
    {
      assert HeldIn(n, (documentId, e));
    }
    forall p | p in l && p.0 == documentId ensures p.1 in LocksIn(n, documentId) { assert HeldIn(n, p); }
  }

  /** The loop over a socket's keys is confined to a document, or to none in particular. */
  predicate Concerns(within: Option<Id>, p: Place) { within.Some? ==> p.0 == within.value }

  /** As far as that loop has come. */
  ghost function WithoutKeys(l: Leases, socketId: Id, within: Option<Id>, done: set<string>): Leases {
    map p | p in l && !(l[p].socketId == socketId && Concerns(within, p) && LockKey(p.0, p.1) in done) :: l[p]
  }

  lemma WithoutNone(l: Leases, socketId: Id, within: Option<Id>)
    ensures WithoutKeys(l, socketId, within, {}) == l
  {
  }

  /** The key belongs to a lease of the socket. */
  predicate IsKeyOf(l: Leases, socketId: Id, key: string) {
    var p := SplitKey(key);
    p in l && key == LockKey(p.0, p.1) && l[p].socketId == socketId
  }

  lemma KeysAreLeases(l: Leases, k: Keys, socketId: Id)
    requires Agree(l, k)
    ensures forall key :: key in KeysOf(k, socketId) ==> IsKeyOf(l, socketId, key)
  {
    forall key | key in KeysOf(k, socketId) ensures IsKeyOf(l, socketId, key) {
      assert AgreesOn(l, k, socketId, key);
    }
  }

  lemma WithoutOneMore(l: Leases, socketId: Id, within: Option<Id>, done: set<string>, key: string)
    requires Placed(l) && IsKeyOf(l, socketId, key) && key !in done
    ensures WithoutKeys(l, socketId, within, done + {key}) ==
            if Concerns(within, SplitKey(key)) then WithoutKeys(l, socketId, within, done) - {SplitKey(key)}
            else WithoutKeys(l, socketId, within, done)
    ensures IsKeyOf(WithoutKeys(l, socketId, within, done), socketId, key)
  {
    forall p | p in l ensures LockKey(p.0, p.1) == key <==> p == SplitKey(key) { KeySplits(p.0, p.1); }
  }

  lemma OneMoreDone(rest: set<string>, done: set<string>, key: string)
    requires key in rest && rest !! done
    ensures rest - {key} !! done + {key} && rest - {key} + (done + {key}) == rest + done
  {
  }

  lemma WithoutAll(l: Leases, k: Keys, socketId: Id, within: Option<Id>)
    requires Agree(l, k) && Placed(l)
    ensures WithoutKeys(l, socketId, within, KeysOf(k, socketId)) ==
            if within.Some? then WithoutSocketIn(l, socketId, within.value) else WithoutSocket(l, socketId)
  {
    forall p | p in l && l[p].socketId == socketId ensures LockKey(p.0, p.1) in KeysOf(k, socketId) {
      KeySplits(p.0, p.1);
      assert AgreesOn(l, k, socketId, LockKey(p.0, p.1));
    }
  }

  lemma SocketIsGone(l: Leases, k: Keys, n: Nested, socketId: Id)
    requires Agree(l, k) && NoEmptyEntries(n, k) && forall p :: p in l ==> l[p].socketId != socketId
    ensures socketId !in k
  {
    forall key ensures key !in KeysOf(k, socketId) { assert AgreesOn(l, k, socketId, key); }
    assert KeysOf(k, socketId) == {};
  }

  /** As far as the loop that reconciles a document has come. */
  ghost function ReconciledExcept(l: Leases, documentId: Id, active: set<Id>, rest: set<Id>): Leases {
    map p | p in l && (p.0 == documentId && p.1 !in rest ==> p.1 in active) :: l[p]
  }

  lemma ReconciledAll(l: Leases, documentId: Id, active: set<Id>, all: set<Id>)
    requires forall p :: p in l && p.0 == documentId ==> p.1 in all
    ensures ReconciledExcept(l, documentId, active, all) == l
  {
  }

  lemma ReconciledOneLess(l: Leases, documentId: Id, active: set<Id>, rest: set<Id>, elementId: Id)
    requires elementId in rest && (documentId, elementId) in l
    ensures ReconciledExcept(l, documentId, active, rest - {elementId}) ==
            if elementId !in active then ReconciledExcept(l, documentId, active, rest) - {(documentId, elementId)}
            else ReconciledExcept(l, documentId, active, rest)
  {
    forall p | p in l ensures p.0 == documentId && p.1 == elementId <==> p == (documentId, elementId) { }
  }

  lemma ReconciledNone(l: Leases, documentId: Id, active: set<Id>, now: nat)
    ensures ReconciledExcept(Live(l, documentId, now), documentId, active, {}) == Reconciled(l, documentId, active, now)
  {
  }

  predicate Matches(lock: Lock, r: Request, leaseId: nat) {
    lock.userId == r.userId && lock.socketId == r.socketId && lock.leaseId == leaseId
  }

  class CollaborationLockStore {
    var locksByDocument: Nested
    var lockKeysBySocket: Keys
    var issuedLeases: nat
    ghost var leases: Leases

    constructor ()
      ensures Valid() && leases == map[]
    {
      locksByDocument, lockKeysBySocket, issuedLeases := map[], map[], 0;
      leases := map[];
    }

    ghost predicate Valid()
      reads this
    {
      && Represents(locksByDocument, leases) && Placed(leases) && Agree(leases, lockKeysBySocket)
      && NoEmptyEntries(locksByDocument, lockKeysBySocket)
    }

    method Remove(lock: Lock)
      requires Valid() && (lock.documentId, lock.elementId) in leases
                 && leases[(lock.documentId, lock.elementId)] == lock
      modifies this`locksByDocument, this`lockKeysBySocket, this`leases
      ensures Valid() && leases == old(leases) - {(lock.documentId, lock.elementId)}
    {
      ghost var p := (lock.documentId, lock.elementId);
      assert HeldIn(locksByDocument, p);
      RepresentsDrop(locksByDocument, leases, p);
      AgreeAfterDropping(leases, lockKeysBySocket, p);
      RemoveFromDocument(lock);
      RemoveFromSocket(lock);
      leases := leases - {p};
    }

    method RemoveFromDocument(lock: Lock)
      requires lock.documentId in locksByDocument
      requires forall d :: d in locksByDocument ==> locksByDocument[d] != map[]
      modifies this`locksByDocument
      ensures locksByDocument == Drop(old(locksByDocument), (lock.documentId, lock.elementId))
      ensures forall d :: d in locksByDocument ==> locksByDocument[d] != map[]
    {
      var locks := locksByDocument[lock.documentId] - {lock.elementId};
      if locks == map[] {
        locksByDocument := locksByDocument - {lock.documentId};
      } else {
        locksByDocument := locksByDocument[lock.documentId := locks];
      }
    }

    method RemoveFromSocket(lock: Lock)
      requires forall s :: s in lockKeysBySocket ==> lockKeysBySocket[s] != {}
      modifies this`lockKeysBySocket
      ensures lockKeysBySocket == DropKey(old(lockKeysBySocket), lock.socketId,
                  LockKey(lock.documentId, lock.elementId))
      ensures forall s :: s in lockKeysBySocket ==> lockKeysBySocket[s] != {}
    {
      if lock.socketId !in lockKeysBySocket { return; }
      var keys := lockKeysBySocket[lock.socketId] - {LockKey(lock.documentId, lock.elementId)};
      if keys == {} {
        lockKeysBySocket := lockKeysBySocket - {lock.socketId};
      } else {
        lockKeysBySocket := lockKeysBySocket[lock.socketId := keys];
      }
    }

    /** Removes the leases of the document that have expired, and no others. */
    method ExpireDocument(documentId: Id, now: nat)
      requires Valid()
      modifies this`locksByDocument, this`lockKeysBySocket, this`leases
      ensures Valid() && leases == Live(old(leases), documentId, now)
    {
      var locks := LocksIn(locksByDocument, documentId);
      ghost var before := leases;
      LocksAreLeases(locksByDocument, leases, documentId);
      ExceptAll(before, documentId, now, locks.Keys);
      var rest := locks.Keys;
      while rest != {}
        invariant rest <= locks.Keys && Valid() && leases == LiveExcept(before, documentId, now, rest)
        decreases rest
      {
        var elementId :| elementId in rest;
        ExceptOneLess(before, documentId, now, rest, elementId);
        if locks[elementId].expiresAt <= now {
          assert (documentId, elementId) in leases && leases[(documentId, elementId)] == locks[elementId];
          Remove(locks[elementId]);
        }
        rest := rest - {elementId};
      }
      ExceptNone(before, documentId, now);
    }

    method Find(documentId: Id, elementId: Id) returns (lock: Option<Lock>)
      requires Valid()
      ensures lock == if (documentId, elementId) in leases then Some(leases[(documentId, elementId)]) else None
      ensures lock.Some? ==> lock.value.documentId == documentId && lock.value.elementId == elementId
    {
      LocksAreLeases(locksByDocument, leases, documentId);
      var locks := LocksIn(locksByDocument, documentId);
      return if elementId in locks then Some(locks[elementId]) else None;
    }

    /** None when another holder has the element; the holder's own lease is renewed. */
    method Acquire(r: Request, ttl: nat, now: nat) returns (lock: Option<Lock>)
      requires Valid() && IsKeyPart(r.documentId) && IsKeyPart(r.elementId)
      modifies this
      ensures Valid() && leases == Acquired(old(leases), r, ttl, now, old(issuedLeases))
      ensures lock.None? <==> Refuses(Live(old(leases), r.documentId, now), r)
      ensures lock.Some? ==>
                PlaceOf(r) in leases && leases[PlaceOf(r)] == lock.value && lock.value.expiresAt == now + ttl
    {
      ExpireDocument(r.documentId, now);
      var existing := Find(r.documentId, r.elementId);
      if existing.Some? {
        if existing.value.userId != r.userId || existing.value.socketId != r.socketId { return None; }
        RenewStored(existing.value, now + ttl);
        return Some(existing.value.(expiresAt := now + ttl));
      }
      var created := Lock(r.documentId, r.elementId, r.userId, r.socketId, issuedLeases, now + ttl);
      issuedLeases := issuedLeases + 1;
      Add(created);
      return Some(created);
    }

    method Add(lock: Lock)
      requires Valid() && IsKeyPart(lock.documentId) && IsKeyPart(lock.elementId)
                 && (lock.documentId, lock.elementId) !in leases
      modifies this`locksByDocument, this`lockKeysBySocket, this`leases
      ensures Valid() && leases == old(leases)[(lock.documentId, lock.elementId) := lock]
    {
      RepresentsPut(locksByDocument, leases, lock);
      AgreeAfterAdding(leases, lockKeysBySocket, lock);
      locksByDocument := Put(locksByDocument, lock);
      lockKeysBySocket := AddKey(lockKeysBySocket, lock.socketId, LockKey(lock.documentId, lock.elementId));
      leases := leases[(lock.documentId, lock.elementId) := lock];
      assert lock.elementId in locksByDocument[lock.documentId];
      assert LockKey(lock.documentId, lock.elementId) in lockKeysBySocket[lock.socketId];
    }

    method RenewStored(lock: Lock, until: nat)
      requires Valid() && (lock.documentId, lock.elementId) in leases
                 && leases[(lock.documentId, lock.elementId)] == lock
      modifies this`locksByDocument, this`leases
      ensures Valid() && leases == Renewed(old(leases), (lock.documentId, lock.elementId), until)
    {
      ghost var p := (lock.documentId, lock.elementId);
      var renewed := lock.(expiresAt := until);
      RepresentsPut(locksByDocument, leases, renewed);
      AgreeAfterRenewing(leases, lockKeysBySocket, p, until);
      assert HeldIn(locksByDocument, p);
      locksByDocument := locksByDocument[lock.documentId :=
          locksByDocument[lock.documentId][lock.elementId := renewed]];
      leases := leases[p := renewed];
    }

    method Renew(r: Request, leaseId: nat, ttl: nat, now: nat) returns (lock: Option<Lock>)
      requires Valid()
      modifies this`locksByDocument, this`lockKeysBySocket, this`leases
      ensures Valid() && leases == RenewedBy(old(leases), r, leaseId, ttl, now)
      ensures lock.Some? <==> Presents(Live(old(leases), r.documentId, now), r, leaseId)
    {
      ExpireDocument(r.documentId, now);
      var existing := Find(r.documentId, r.elementId);
      if existing.None? || !Matches(existing.value, r, leaseId) { return None; }
      RenewStored(existing.value, now + ttl);
      return Some(existing.value.(expiresAt := now + ttl));
    }

    method Release(r: Request, leaseId: nat, now: nat) returns (released: bool)
      requires Valid()
      modifies this`locksByDocument, this`lockKeysBySocket, this`leases
      ensures Valid() && leases == ReleasedBy(old(leases), r, leaseId, now)
      ensures released <==> Presents(Live(old(leases), r.documentId, now), r, leaseId)
    {
      ExpireDocument(r.documentId, now);
      var existing := Find(r.documentId, r.elementId);
      assert Presents(leases, r, leaseId) <==> existing.Some? && Matches(existing.value, r, leaseId);
      if existing.None? || !Matches(existing.value, r, leaseId) { return false; }
      Remove(existing.value);
      return true;
    }

    /** Every lease of the socket goes, and no other. */
    method ReleaseBySocket(socketId: Id)
      requires Valid()
      modifies this`locksByDocument, this`lockKeysBySocket, this`leases
      ensures Valid() && leases == WithoutSocket(old(leases), socketId)
      ensures socketId !in lockKeysBySocket && forall p :: p in leases ==> leases[p].socketId != socketId
    {
      ReleaseKeys(socketId, None);
      SocketIsGone(leases, lockKeysBySocket, locksByDocument, socketId);
    }

    method ReleaseBySocketInDocument(socketId: Id, documentId: Id)
      requires Valid()
      modifies this`locksByDocument, this`lockKeysBySocket, this`leases
      ensures Valid() && leases == WithoutSocketIn(old(leases), socketId, documentId)
    {
      ReleaseKeys(socketId, Some(documentId));
    }

    method RemoveIfHeld(place: Place, socketId: Id)
      requires Valid()
      modifies this`locksByDocument, this`lockKeysBySocket, this`leases
      ensures Valid()
      ensures leases == if place in old(leases) && old(leases)[place].socketId == socketId then old(leases) - {place}
                else old(leases)
    {
      var lock := Find(place.0, place.1);
      if lock.Some? && lock.value.socketId == socketId { Remove(lock.value); }
    }

    method ReleaseKeys(socketId: Id, within: Option<Id>)
      requires Valid()
      modifies this`locksByDocument, this`lockKeysBySocket, this`leases
      ensures Valid()
      ensures leases == if within.Some? then WithoutSocketIn(old(leases), socketId, within.value)
                else WithoutSocket(old(leases), socketId)
    {
      var lockKeys := KeysOf(lockKeysBySocket, socketId);
      ghost var before := leases;
      KeysAreLeases(before, lockKeysBySocket, socketId);
      WithoutAll(before, lockKeysBySocket, socketId, within);
      ghost var done: set<string> := {};
      WithoutNone(before, socketId, within);
      var rest := lockKeys;
      while rest != {}
        invariant Valid() && leases == WithoutKeys(before, socketId, within, done)
        invariant rest !! done && rest + done == lockKeys
        decreases rest
      {
        var key :| key in rest;
        WithoutOneMore(before, socketId, within, done, key);
        OneMoreDone(rest, done, key);
        var place := SplitKey(key);
        if Concerns(within, place) { RemoveIfHeld(place, socketId); }
        done := done + {key};
        rest := rest - {key};
      }
      assert done == lockKeys;
    }

    method ReconcileDocumentElements(documentId: Id, active: set<Id>, now: nat)
      requires Valid()
      modifies this`locksByDocument, this`lockKeysBySocket, this`leases
      ensures Valid() && leases == Reconciled(old(leases), documentId, active, now)
    {
      ghost var start := leases;
      ExpireDocument(documentId, now);
      ghost var before := leases;
      LocksAreLeases(locksByDocument, leases, documentId);
      var locks := LocksIn(locksByDocument, documentId);
      ReconciledAll(before, documentId, active, locks.Keys);
      var rest := locks.Keys;
      while rest != {}
        invariant rest <= locks.Keys && Valid() && leases == ReconciledExcept(before, documentId, active, rest)
        decreases rest
      {
        var elementId :| elementId in rest;
        ReconciledOneLess(before, documentId, active, rest, elementId);
        if elementId !in active {
          assert (documentId, elementId) in leases && leases[(documentId, elementId)] == locks[elementId];
          Remove(locks[elementId]);
        }
        rest := rest - {elementId};
      }
      ReconciledNone(start, documentId, active, now);
    }

    /** A timer that fires removes what it finds in its place, if that has expired. */
    method ExpirationTimerFired(documentId: Id, elementId: Id, now: nat)
      requires Valid()
      modifies this`locksByDocument, this`lockKeysBySocket, this`leases
      ensures Valid() && leases == TimerFired(old(leases), (documentId, elementId), now)
    {
      var lock := Find(documentId, elementId);
      if lock.None? || lock.value.expiresAt > now { return; }
      Remove(lock.value);
    }

    method HasLockOwnedByAnotherSocket(documentId: Id, elementIds: set<Id>, socketId: Id,
        now: nat) returns (result: bool)
      requires Valid()
      modifies this`locksByDocument, this`lockKeysBySocket, this`leases
      ensures Valid() && leases == Live(old(leases), documentId, now)
      ensures result <==> OwnedByAnother(leases, documentId, elementIds, socketId)
    {
      ExpireDocument(documentId, now);
      LocksAreLeases(locksByDocument, leases, documentId);
      var locks := LocksIn(locksByDocument, documentId);
      return exists e :: e in elementIds && e in locks && locks[e].socketId != socketId;
    }

    method HasAnyLock(documentId: Id, elementIds: set<Id>, now: nat) returns (result: bool)
      requires Valid()
      modifies this`locksByDocument, this`lockKeysBySocket, this`leases
      ensures Valid() && leases == Live(old(leases), documentId, now)
      ensures result <==> exists e :: e in elementIds && (documentId, e) in leases
    {
      ExpireDocument(documentId, now);
      LocksAreLeases(locksByDocument, leases, documentId);
      var locks := LocksIn(locksByDocument, documentId);
      return exists e :: e in elementIds && e in locks;
    }
  }

  predicate OwnedByAnother(l: Leases, documentId: Id, elementIds: set<Id>, socketId: Id) {
    exists e :: e in elementIds && (documentId, e) in l && l[(documentId, e)].socketId != socketId
  }
}
