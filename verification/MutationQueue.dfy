/**
 The queue that runs the mutations of a document one after the other, built from promises that wait for one another.
 */
module MutationQueue {

  import opened Wrappers
  import opened Uml

  datatype Priority = Standard | Critical

  datatype Entry = Entry(ticket: nat, priority: Priority)

  /** One slot is kept for critical work. */
  function StandardCapacity(capacity: nat): nat { if capacity <= 1 then 1 else capacity - 1 }

  function CapacityFor(capacity: nat, priority: Priority): nat {
    if priority.Standard? then StandardCapacity(capacity) else capacity
  }

  function Criticals(line: seq<Entry>): nat {
    if line == [] then 0 else (if line[0].priority.Critical? then 1 else 0) + Criticals(line[1..])
  }

  /** What the two capacities make of every line. */
  predicate WithinCapacity(capacity: nat, line: seq<Entry>) {
    |line| <= (if capacity == 0 then 1 else capacity) && |line| <= StandardCapacity(capacity) + Criticals(line)
  }

  lemma {:induction false} CriticalsAppend(a: seq<Entry>, e: Entry)
    ensures Criticals(a + [e]) == Criticals(a) + (if e.priority.Critical? then 1 else 0)
  {
    if a == [] {
      assert a + [e] == [e] && [e][1..] == [];
    } else {
      assert (a + [e])[0] == a[0] && (a + [e])[1..] == a[1..] + [e];
      CriticalsAppend(a[1..], e);
    }
  }

  /** Critical work finds its slot free, provided it is the only critical work of the document. */
  lemma CriticalWorkHasRoom(capacity: nat, line: seq<Entry>)
    requires WithinCapacity(capacity, line) && Criticals(line) == 0 && capacity >= 2
    ensures |line| < CapacityFor(capacity, Critical)
  {
  }

  /** What each operation awaits before it starts, and which operations have finished. */
  datatype Promises = Promises(awaits: map<nat, Option<nat>>, released: set<nat>)

  /** A tail is settled once its operation has finished and the tail before it is settled. */
  ghost predicate Settled(p: Promises, ticket: nat)
    decreases ticket
  {
    && ticket in p.released && ticket in p.awaits
    && (p.awaits[ticket].Some? ==> p.awaits[ticket].value < ticket && Settled(p, p.awaits[ticket].value))
  }

  ghost predicate MayStart(p: Promises, ticket: nat) {
    ticket in p.awaits && (p.awaits[ticket].Some? ==> Settled(p, p.awaits[ticket].value))
  }

  ghost predicate Extends(p: Promises, q: Promises) {
    p.released <= q.released && forall t :: t in p.awaits ==> t in q.awaits && q.awaits[t] == p.awaits[t]
  }

  lemma {:induction false} SettledStays(p: Promises, q: Promises, ticket: nat)
    requires Extends(p, q) && Settled(p, ticket)
    ensures Settled(q, ticket)
    decreases ticket
  {
    if p.awaits[ticket].Some? { SettledStays(p, q, p.awaits[ticket].value); }
  }

  lemma MayStartStays(p: Promises, q: Promises, ticket: nat)
    requires Extends(p, q) && MayStart(p, ticket)
    ensures MayStart(q, ticket)
  {
    if p.awaits[ticket].Some? { SettledStays(p, q, p.awaits[ticket].value); }
  }

  /** The operations of a line wait for one another in order, and the first of them for nothing unfinished. */
  ghost predicate Chained(p: Promises, line: seq<Entry>) {
    && (forall i :: 0 <= i < |line| ==> line[i].ticket !in p.released && line[i].ticket in p.awaits)
    && (forall i :: 0 <= i < |line| - 1 ==>
          line[i].ticket < line[i + 1].ticket && p.awaits[line[i + 1].ticket] == Some(line[i].ticket))
    && (line != [] ==> StartsFree(p, line[0].ticket))
  }

  ghost predicate StartsFree(p: Promises, ticket: nat) {
    && ticket in p.awaits && MayStart(p, ticket)
    && (p.awaits[ticket].Some? ==> p.awaits[ticket].value < ticket)
  }

  /** First in, first out, one at a time: only the head of a line may run. */
  lemma OnlyTheHeadMayStart(p: Promises, line: seq<Entry>, i: nat)
    requires Chained(p, line) && i < |line|
    ensures MayStart(p, line[i].ticket) <==> i == 0
  {
    if i > 0 {
      var before := line[i - 1].ticket;
      assert line[i - 1 + 1] == line[i];
      assert p.awaits[line[i].ticket] == Some(before);
      assert !Settled(p, before);
    }
  }

  lemma ChainedStays(p: Promises, q: Promises, line: seq<Entry>)
    requires Extends(p, q) && Chained(p, line) && forall i :: 0 <= i < |line| ==> line[i].ticket !in q.released
    ensures Chained(q, line)
  {
    if line != [] { MayStartStays(p, q, line[0].ticket); }
  }

  lemma ChainedMore(p: Promises, line: seq<Entry>, e: Entry)
    requires Chained(p, line) && e.ticket in p.awaits && e.ticket !in p.released
    requires line == [] ==> StartsFree(p, e.ticket)
    requires line != [] ==> line[|line| - 1].ticket < e.ticket && p.awaits[e.ticket] == Some(line[|line| - 1].ticket)
    ensures Chained(p, line + [e])
  {
    var more := line + [e];
    forall i | 0 <= i < |more| - 1
      ensures more[i].ticket < more[i + 1].ticket && p.awaits[more[i + 1].ticket] == Some(more[i].ticket)
    {
      if i < |line| - 1 { assert more[i + 1] == line[i + 1]; }
    }
  }

  lemma ChainedLess(p: Promises, line: seq<Entry>)
    requires line != [] && Chained(p, line)
    ensures Chained(p.(released := p.released + {line[0].ticket}), line[1..])
  {
    var q := p.(released := p.released + {line[0].ticket});
    var rest := line[1..];
    forall i | 0 <= i < |rest| ensures rest[i].ticket > line[0].ticket { HeadIsFirst(p, line, i + 1); }
    forall i | 0 <= i < |rest| - 1
      ensures rest[i].ticket < rest[i + 1].ticket && q.awaits[rest[i + 1].ticket] == Some(rest[i].ticket)
    {
      assert line[i + 1] == rest[i] && line[i + 1 + 1] == rest[i + 1];
    }
    MayStartStays(p, q, line[0].ticket);
    assert Settled(q, line[0].ticket);
    if rest != [] { assert line[0 + 1] == rest[0]; }
  }

  lemma {:induction false} HeadIsFirst(p: Promises, line: seq<Entry>, i: nat)
    requires Chained(p, line) && 0 < i < |line|
    ensures line[0].ticket < line[i].ticket
  {
    assert line[i - 1].ticket < line[i - 1 + 1].ticket;
    if i > 1 { HeadIsFirst(p, line, i - 1); }
  }

  lemma Lengthened(before: Promises, after: Promises, line: seq<Entry>, e: Entry, previous: Option<nat>)
    requires Chained(before, line) && e.ticket !in before.awaits && e.ticket !in before.released
    requires after == before.(awaits := before.awaits[e.ticket := previous])
    requires line == [] ==> previous == None
    requires line != [] ==> previous == Some(line[|line| - 1].ticket)
    requires forall t :: t in before.awaits ==> t < e.ticket
    ensures Chained(after, line + [e])
  {
    assert Extends(before, after);
    ChainedStays(before, after, line);
    ChainedMore(after, line, e);
  }

  /** A line ends with its head only if it has no other entry. */
  lemma LastOfLine(p: Promises, line: seq<Entry>)
    requires Chained(p, line) && line != []
    ensures line[|line| - 1].ticket == line[0].ticket <==> |line| == 1
  {
    if |line| > 1 { HeadIsFirst(p, line, |line| - 1); }
  }

  /** The fields of the queue, and the lines they stand for. */
  datatype Queue = Queue(tails: map<Id, nat>, pendingByDocument: map<Id, nat>, promises: Promises, issued: nat)

  type Lines = map<Id, seq<Entry>>

  function LineOf(lines: Lines, id: Id): seq<Entry> { if id in lines then lines[id] else [] }

  predicate Counted(capacity: nat, q: Queue, line: seq<Entry>, id: Id) {
    && WithinCapacity(capacity, line)
    && (line == [] ==> id !in q.tails && id !in q.pendingByDocument)
    && (line != [] ==> && id in q.tails && q.tails[id] == line[|line| - 1].ticket
                       && id in q.pendingByDocument && q.pendingByDocument[id] == |line|)
  }

  /** Tickets are numbered in the order in which they are issued. */
  ghost predicate Numbered(q: Queue) {
    (forall t :: t in q.promises.awaits ==> t < q.issued) && forall t :: t in q.promises.released ==> t < q.issued
  }

  predicate Holds(line: seq<Entry>, ticket: nat) { exists e :: e in line && e.ticket == ticket }

  /** No ticket stands in two lines. */
  ghost predicate Separate(lines: Lines) {
    forall a, b, t :: a != b && Holds(LineOf(lines, a), t) ==> !Holds(LineOf(lines, b), t)
  }

  ghost predicate InOrder(capacity: nat, q: Queue, lines: Lines, id: Id) {
    Chained(q.promises, LineOf(lines, id)) && Counted(capacity, q, LineOf(lines, id), id)
  }

  ghost predicate Sound(capacity: nat, q: Queue, lines: Lines) {
    Numbered(q) && Separate(lines) && forall id :: InOrder(capacity, q, lines, id)
  }

  function Pending(q: Queue, id: Id): nat { if id in q.pendingByDocument then q.pendingByDocument[id] else 0 }

  function Awaited(q: Queue, id: Id): Option<nat> { if id in q.tails then Some(q.tails[id]) else None }

  function Enqueued(q: Queue, id: Id): Queue {
    Queue(q.tails[id := q.issued], q.pendingByDocument[id := Pending(q, id) + 1],
          q.promises.(awaits := q.promises.awaits[q.issued := Awaited(q, id)]), q.issued + 1)
  }

  function Finished(q: Queue, id: Id, ticket: nat): Queue {
    Queue(if id in q.tails && q.tails[id] == ticket then q.tails - {id} else q.tails,
          if Pending(q, id) > 1 then q.pendingByDocument[id := Pending(q, id) - 1] else q.pendingByDocument - {id},
          q.promises.(released := q.promises.released + {ticket}), q.issued)
  }

  lemma PendingCountsTheLine(capacity: nat, q: Queue, lines: Lines, id: Id)
    requires Sound(capacity, q, lines)
    ensures Pending(q, id) == |LineOf(lines, id)|
    ensures Awaited(q, id) == if LineOf(lines, id) == [] then None
              else Some(LineOf(lines, id)[|LineOf(lines, id)| - 1].ticket)
  {
    assert InOrder(capacity, q, lines, id);
  }

  lemma IssuedIsNowhere(capacity: nat, q: Queue, lines: Lines, id: Id)
    requires Sound(capacity, q, lines)
    ensures !Holds(LineOf(lines, id), q.issued)
  {
    assert InOrder(capacity, q, lines, id);
    var line := LineOf(lines, id);
    forall e | e in line ensures e.ticket != q.issued {
      var i :| 0 <= i < |line| && line[i] == e;
      assert line[i].ticket in q.promises.awaits;
    }
  }

  lemma OtherLineStays(capacity: nat, p: Queue, q: Queue, lines: Lines, more: Lines, id: Id)
    requires InOrder(capacity, p, lines, id) && LineOf(more, id) == LineOf(lines, id) && Extends(p.promises, q.promises)
    requires forall t :: Holds(LineOf(lines, id), t) ==> t !in q.promises.released
    requires Awaited(q, id) == Awaited(p, id) && (id in p.pendingByDocument <==> id in q.pendingByDocument)
    requires id in p.pendingByDocument ==> q.pendingByDocument[id] == p.pendingByDocument[id]
    ensures InOrder(capacity, q, more, id)
  {
    var line := LineOf(lines, id);
    forall i | 0 <= i < |line| ensures line[i].ticket !in q.promises.released {
      assert line[i] in line && Holds(line, line[i].ticket);
    }
    ChainedStays(p.promises, q.promises, line);
  }

  lemma OwnLineGrows(capacity: nat, q: Queue, lines: Lines, id: Id, e: Entry)
    requires Sound(capacity, q, lines) && e.ticket == q.issued
               && |LineOf(lines, id)| < CapacityFor(capacity, e.priority)
    ensures InOrder(capacity, Enqueued(q, id), lines[id := LineOf(lines, id) + [e]], id)
  {
    var line := LineOf(lines, id);
    PendingCountsTheLine(capacity, q, lines, id);
    assert InOrder(capacity, q, lines, id);
    Lengthened(q.promises, Enqueued(q, id).promises, line, e, Awaited(q, id));
    CriticalsAppend(line, e);
  }

  lemma EnqueueKeepsSound(capacity: nat, q: Queue, lines: Lines, id: Id, e: Entry)
    requires Sound(capacity, q, lines) && e.ticket == q.issued
               && |LineOf(lines, id)| < CapacityFor(capacity, e.priority)
    ensures Sound(capacity, Enqueued(q, id), lines[id := LineOf(lines, id) + [e]])
  {
    var more, next := lines[id := LineOf(lines, id) + [e]], Enqueued(q, id);
    OwnLineGrows(capacity, q, lines, id, e);
    forall other ensures InOrder(capacity, next, more, other) {
      if other != id {
        assert InOrder(capacity, q, lines, other);
        forall t | Holds(LineOf(lines, other), t) ensures t !in next.promises.released {
          TicketIsUnreleased(q, lines, other, capacity, t);
        }
        OtherLineStays(capacity, q, next, lines, more, other);
      }
    }
    forall a, b, t | a != b && Holds(LineOf(more, a), t) ensures !Holds(LineOf(more, b), t) {
      IssuedIsNowhere(capacity, q, lines, a);
      IssuedIsNowhere(capacity, q, lines, b);
      HoldsAppended(LineOf(lines, id), e, t);
      assert Holds(LineOf(lines, a), t) ==> !Holds(LineOf(lines, b), t);
    }
  }

  lemma HoldsAppended(line: seq<Entry>, e: Entry, t: nat)
    ensures Holds(line + [e], t) <==> Holds(line, t) || t == e.ticket
  {
    assert e in line + [e];
    assert forall x :: x in line ==> x in line + [e];
  }

  lemma TicketIsUnreleased(q: Queue, lines: Lines, id: Id, capacity: nat, t: nat)
    requires InOrder(capacity, q, lines, id) && Holds(LineOf(lines, id), t)
    ensures t !in q.promises.released
  {
    var line := LineOf(lines, id);
    var e :| e in line && e.ticket == t;
    var i :| 0 <= i < |line| && line[i] == e;
    assert line[i].ticket !in q.promises.released;
  }

  lemma OwnLineShrinks(capacity: nat, q: Queue, lines: Lines, id: Id)
    requires Sound(capacity, q, lines) && LineOf(lines, id) != []
    ensures InOrder(capacity, Finished(q, id, LineOf(lines, id)[0].ticket), lines[id := LineOf(lines, id)[1..]], id)
  {
    var line := LineOf(lines, id);
    PendingCountsTheLine(capacity, q, lines, id);
    assert InOrder(capacity, q, lines, id);
    ChainedLess(q.promises, line);
    LastOfLine(q.promises, line);
    assert line == [line[0]] + line[1..];
  }

  lemma OtherLinesStay(capacity: nat, q: Queue, lines: Lines, id: Id, other: Id)
    requires Sound(capacity, q, lines) && LineOf(lines, id) != [] && other != id
    ensures InOrder(capacity, Finished(q, id, LineOf(lines, id)[0].ticket), lines[id := LineOf(lines, id)[1..]], other)
  {
    var line := LineOf(lines, id);
    assert InOrder(capacity, q, lines, other);
    assert Holds(line, line[0].ticket) by { assert line[0] in line; }
    var next := Finished(q, id, line[0].ticket);
    forall t | Holds(LineOf(lines, other), t) ensures t !in next.promises.released {
      TicketIsUnreleased(q, lines, other, capacity, t);
    }
    OtherLineStays(capacity, q, next, lines, lines[id := line[1..]], other);
  }

  lemma LeavingStaysSeparate(lines: Lines, id: Id)
    requires Separate(lines) && LineOf(lines, id) != []
    ensures Separate(lines[id := LineOf(lines, id)[1..]])
  {
    var line, fewer := LineOf(lines, id), lines[id := LineOf(lines, id)[1..]];
    forall a, b, t | a != b && Holds(LineOf(fewer, a), t) ensures !Holds(LineOf(fewer, b), t) {
      assert forall e :: e in line[1..] ==> e in line;
      assert Holds(LineOf(lines, a), t) ==> !Holds(LineOf(lines, b), t);
    }
  }

  lemma FinishKeepsSound(capacity: nat, q: Queue, lines: Lines, id: Id)
    requires Sound(capacity, q, lines) && LineOf(lines, id) != []
    ensures Sound(capacity, Finished(q, id, LineOf(lines, id)[0].ticket), lines[id := LineOf(lines, id)[1..]])
  {
    var next, fewer := Finished(q, id, LineOf(lines, id)[0].ticket), lines[id := LineOf(lines, id)[1..]];
    assert InOrder(capacity, q, lines, id);
    OwnLineShrinks(capacity, q, lines, id);
    LeavingStaysSeparate(lines, id);
    forall other ensures InOrder(capacity, next, fewer, other) {
      if other != id { OtherLinesStay(capacity, q, lines, id, other); }
    }
  }

  class DocumentMutationQueue {
    const capacity: nat
    var tails: map<Id, nat>
    var pendingByDocument: map<Id, nat>
    var promises: Promises
    var issued: nat
    ghost var lines: Lines

    constructor (capacity: nat)
      ensures Valid() && this.capacity == capacity && forall id :: Line(id) == []
    {
      this.capacity := capacity;
      tails, pendingByDocument, promises, issued := map[], map[], Promises(map[], {}), 0;
      lines := map[];
    }

    ghost function Line(id: Id): seq<Entry>
      reads this
    {
      LineOf(lines, id)
    }

    function Value(): Queue
      reads this
    {
      Queue(tails, pendingByDocument, promises, issued)
    }

    ghost predicate Valid()
      reads this
    {
      Sound(capacity, Value(), lines)
    }

    /** Takes a place at the end of the line, unless the capacity of the priority is reached. */
    method Enqueue(id: Id, priority: Priority) returns (ticket: Option<nat>)
      requires Valid()
      modifies this
      ensures Valid()
      ensures ticket.Some? <==> |old(Line(id))| < CapacityFor(capacity, priority)
      ensures Line(id) == if ticket.Some? then old(Line(id)) + [Entry(ticket.value, priority)] else old(Line(id))
      ensures forall other :: other != id ==> Line(other) == old(Line(other))
    {
      PendingCountsTheLine(capacity, Value(), lines, id);
      var pending := if id in pendingByDocument then pendingByDocument[id] else 0;
      if pending >= CapacityFor(capacity, priority) { return None; }
      var t := issued;
      ghost var q, more := Value(), lines[id := Line(id) + [Entry(t, priority)]];
      assert Sound(capacity, Enqueued(q, id), more) by {
        EnqueueKeepsSound(capacity, q, lines, id, Entry(t, priority));
      }
      var previous := if id in tails then Some(tails[id]) else None;
      pendingByDocument := pendingByDocument[id := pending + 1];
      promises := promises.(awaits := promises.awaits[t := previous]);
      tails := tails[id := t];
      issued := issued + 1;
      lines := more;
      assert Value() == Enqueued(q, id);
      return Some(t);
    }

    /** The operation that has run leaves the line; only the head can be that operation. */
    method Finish(id: Id, ticket: nat)
      requires Valid() && Holds(Line(id), ticket) && MayStart(promises, ticket)
      modifies this
      ensures Valid()
      ensures old(Line(id)) != [] && old(Line(id))[0].ticket == ticket && Line(id) == old(Line(id))[1..]
      ensures forall other :: other != id ==> Line(other) == old(Line(other))
    {
      ghost var line := Line(id);
      assert InOrder(capacity, Value(), lines, id);
      ghost var i :| 0 <= i < |line| && line[i].ticket == ticket;
      OnlyTheHeadMayStart(promises, line, i);
      ghost var q, fewer := Value(), lines[id := line[1..]];
      assert Sound(capacity, Finished(q, id, ticket), fewer) by { FinishKeepsSound(capacity, q, lines, id); }
      promises := promises.(released := promises.released + {ticket});
      if id in tails && tails[id] == ticket { tails := tails - {id}; }
      var remaining := (if id in pendingByDocument then pendingByDocument[id] else 1) - 1;
      if remaining > 0 {
        pendingByDocument := pendingByDocument[id := remaining];
      } else {
        pendingByDocument := pendingByDocument - {id};
      }
      lines := fewer;
      assert Value() == Finished(q, id, ticket);
    }
  }
}
