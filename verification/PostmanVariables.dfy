/** The variables the generated requests read, and the responses they are captured from. */
module PostmanVariables {

  import opened Wrappers
  import opened Sequences
  import opened Permutations
  import opened Graphs
  import opened Dependencies
  import opened Postman

  datatype Variable = Variable(resource: Id, name: string)

  /** What stands for a column in a request body. */
  datatype Value = Reads(variable: Variable) | Nothing | Example

  function ColumnVariable(r: Resource, c: Owned): Variable {
    Variable(r.id, if c in r.identifier && |r.identifier| == 1 then "id" else c.property)
  }

  function HasId(id: Id): Resource -> bool { (r: Resource) => r.id == id }

  function ResourceById(rs: seq<Resource>, id: Id): (r: Resource)
    requires id in Map(IdOf(), rs)
    ensures r in rs && r.id == id
  {
    var i := IndexWhere(HasId(id), rs);
    assert exists k :: 0 <= k < |rs| && HasId(id)(rs[k]) by {
      var k :| 0 <= k < |rs| && Map(IdOf(), rs)[k] == id;
      assert HasId(id)(rs[k]);
    }
    rs[i.value]
  }

  // Values.

  function HasLocal(c: Owned): Reference -> bool { (ref: Reference) => c in ref.local }

  /** The first foreign key that has the column. */
  function ReferenceFor(r: Resource, c: Owned): (ref: Option<Reference>)
    ensures ref.Some? ==> ref.value in r.references && c in ref.value.local
  {
    match IndexWhere(HasLocal(c), r.references)
    case None => None
    case Some(i) => Some(r.references[i])
  }

  function IsColumn(c: Owned): Owned -> bool { (x: Owned) => x == c }

  /** The column that a column of a foreign key points at. */
  function Referenced(ref: Reference, c: Owned): (r: Owned)
    requires c in ref.local && |ref.local| == |ref.referenced|
    ensures r in ref.referenced
  {
    var i := IndexWhere(IsColumn(c), ref.local);
    assert i.Some?;
    ref.referenced[i.value]
  }

  predicate AllNullable(columns: seq<Owned>) { forall c :: c in columns ==> c.nullable }

  function ReferencedVariable(rs: seq<Resource>, ref: Reference, c: Owned): Variable
    requires c in ref.local && |ref.local| == |ref.referenced| && ref.target in Map(IdOf(), rs)
  {
    ColumnVariable(ResourceById(rs, ref.target), Referenced(ref, c))
  }

  ghost function ResourceGraph(rs: seq<Resource>): Graph { GraphOf(ResourceDependencies(rs)) }

  /** A reference on a cycle that can be left out at first is left out at first. */
  ghost predicate Postponed(rs: seq<Resource>, r: Resource, ref: Reference) {
    Reaches(ResourceGraph(rs), ref.target, r.id) && AllNullable(ref.local)
  }

  ghost function ValueOf(rs: seq<Resource>, r: Resource, c: Owned, action: Action): Value
    requires WellFormed(rs) && r in rs
  {
    if action.Update? && c in r.identifier then Reads(ColumnVariable(r, c))
    else
      match ReferenceFor(r, c)
      case None => if c.nullable then Nothing else Example
      case Some(ref) => if action.Create?
          && Postponed(rs, r, ref) then Nothing else Reads(ReferencedVariable(rs, ref, c))
  }

  method IsCyclicReference(rs: seq<Resource>, r: Resource, target: Id) returns (cyclic: bool)
    ensures cyclic <==> Reaches(ResourceGraph(rs), target, r.id)
  {
    cyclic := PathExists(target, r.id, ResourceDependencies(rs));
  }

  method ValueForColumn(rs: seq<Resource>, r: Resource, c: Owned, action: Action) returns (value: Value)
    requires WellFormed(rs) && r in rs
    ensures value == ValueOf(rs, r, c, action)
  {
    if action.Update? && c in r.identifier { return Reads(ColumnVariable(r, c)); }
    var reference := ReferenceFor(r, c);
    if reference.Some? {
      var cyclic := false;
      if action.Create? { cyclic := IsCyclicReference(rs, r, reference.value.target); }
      if cyclic && AllNullable(reference.value.local) { return Nothing; }
      return Reads(ReferencedVariable(rs, reference.value, c));
    }
    return if c.nullable then Nothing else Example;
  }

  // What a request reads and what it leaves behind.

  function Payload(r: Resource): seq<Owned> { (if r.generated then [] else r.identifier) + r.fields }

  ghost function BodyReads(rs: seq<Resource>, r: Resource, action: Action): set<Variable>
    requires WellFormed(rs) && r in rs
  {
    set c | c in Payload(r) && ValueOf(rs, r, c, action).Reads? :: ValueOf(rs, r, c, action).variable
  }

  function PathReads(r: Resource): set<Variable> { set c | c in r.identifier :: ColumnVariable(r, c) }

  ghost function RequestReads(rs: seq<Resource>, s: Step): set<Variable>
    requires WellFormed(rs) && s.resource in rs
  {
    match s.action
    case Create => BodyReads(rs, s.resource, Create)
    case ListAll => {}
    case Get => PathReads(s.resource)
    case Update => PathReads(s.resource) + BodyReads(rs, s.resource, Update)
    case Delete => PathReads(s.resource)
  }

  /** The columns that any foreign key points at. */
  function PointedAt(rs: seq<Resource>, id: Id): set<Owned> {
    set r, ref, c | r in rs && ref in r.references && ref.target == id && c in ref.referenced :: c
  }

  function CapturedColumns(rs: seq<Resource>, r: Resource): set<Owned> {
    (set c | c in r.identifier) + PointedAt(rs, r.id)
  }

  function RequestCaptures(rs: seq<Resource>, s: Step): set<Variable> {
    if s.action.Create? || s.action.Update? then set c | c in CapturedColumns(rs, s.resource) ::
        ColumnVariable(s.resource, c) else {}
  }

  // Capturing, resource by resource and reference by reference.

  /** Every resource has its identifier and the columns that the references of the resources done point at. */
  ghost predicate CapturedUpTo(rs: seq<Resource>, done: seq<Resource>, captured: map<Id, set<Owned>>) {
    forall r :: r in rs ==> r.id in captured && captured[r.id] == (set c | c in r.identifier) + PointedAt(done, r.id)
  }

  /** Later resources with the same id would replace earlier ones; there are none. */
  method IdentifierColumns(rs: seq<Resource>) returns (captured: map<Id, set<Owned>>)
    requires WellFormed(rs)
    ensures CapturedUpTo(rs, [], captured)
  {
    captured := map[];
    for i := 0 to |rs|
      invariant forall k :: 0 <= k < i ==> rs[k].id in captured && captured[rs[k].id] == set c | c in rs[k].identifier
    {
      assert forall k :: 0 <= k < i ==> Map(IdOf(), rs)[k] != Map(IdOf(), rs)[i];
      assert Map(IdOf(), rs)[i] == rs[i].id;
      captured := captured[rs[i].id := set c | c in rs[i].identifier];
    }
    forall r | r in rs ensures r.id in captured && captured[r.id] == (set c | c in r.identifier) + PointedAt([], r.id) {
      var k :| 0 <= k < |rs| && rs[k] == r;
    }
  }

  function PointedBy(refs: seq<Reference>, id: Id): set<Owned> {
    set ref, c | ref in refs && ref.target == id && c in ref.referenced :: c
  }

  lemma PointedAtGrows(done: seq<Resource>, r: Resource, id: Id)
    ensures PointedAt(done + [r], id) == PointedAt(done, id) + PointedBy(r.references, id)
  {
    forall c ensures c in PointedAt(done + [r], id) <==> c in PointedAt(done, id) + PointedBy(r.references, id) {
      if c in PointedAt(done, id) {
        var q, ref :| q in done && ref in q.references && ref.target == id && c in ref.referenced;
        assert q in done + [r];
      }
    }
  }

  method AddReferences(refs: seq<Reference>, before: map<Id, set<Owned>>) returns (captured: map<Id, set<Owned>>)
    requires forall ref :: ref in refs ==> ref.target in before
    ensures captured.Keys == before.Keys
    ensures forall id :: id in before ==> captured[id] == before[id] + PointedBy(refs, id)
  {
    captured := before;
    for j := 0 to |refs|
      invariant captured.Keys == before.Keys
      invariant forall id :: id in before ==> captured[id] == before[id] + PointedBy(refs[..j], id)
    {
      var target := refs[j].target;
      assert refs[..j + 1] == refs[..j] + [refs[j]];
      forall id | id in before ensures PointedBy(refs[..j + 1], id) == PointedBy(refs[..j], id) + if id == target
          then set c | c in refs[j].referenced else {} {
        PointedByGrows(refs[..j], refs[j], id);
      }
      captured := captured[target := captured[target] + set c | c in refs[j].referenced];
    }
    assert refs[..|refs|] == refs;
  }

  lemma PointedByGrows(refs: seq<Reference>, ref: Reference, id: Id)
    ensures PointedBy(refs + [ref], id) == PointedBy(refs, id) + if id == ref.target then set c | c in ref.referenced
              else {}
  {
    forall c | c in PointedBy(refs, id) ensures c in PointedBy(refs + [ref], id) {
      var q :| q in refs && q.target == id && c in q.referenced;
      assert q in refs + [ref];
    }
    assert ref in refs + [ref];
  }

  lemma CapturedWith(rs: seq<Resource>, done: seq<Resource>, r: Resource, before: map<Id, set<Owned>>,
      captured: map<Id, set<Owned>>)
    requires CapturedUpTo(rs, done, before) && captured.Keys == before.Keys
    requires forall id :: id in before ==> captured[id] == before[id] + PointedBy(r.references, id)
    ensures CapturedUpTo(rs, done + [r], captured)
  {
    forall q | q in rs ensures q.id in captured
        && captured[q.id] == (set c | c in q.identifier) + PointedAt(done + [r], q.id) {
      PointedAtGrows(done, r, q.id);
      assert q.id in before;
    }
  }

  method CaptureResource(rs: seq<Resource>, ghost done: seq<Resource>, r: Resource, before: map<Id, set<Owned>>)
    returns (captured: map<Id, set<Owned>>)
    requires WellFormed(rs) && r in rs && CapturedUpTo(rs, done, before)
    ensures CapturedUpTo(rs, done + [r], captured)
  {
    TargetsAreCaptured(rs, before, r);
    captured := AddReferences(r.references, before);
    CapturedWith(rs, done, r, before, captured);
  }

  method CaptureColumns(rs: seq<Resource>) returns (captured: map<Id, set<Owned>>)
    requires WellFormed(rs)
    ensures CapturedUpTo(rs, rs, captured)
  {
    captured := IdentifierColumns(rs);
    for i := 0 to |rs|
      invariant CapturedUpTo(rs, rs[..i], captured)
    {
      captured := CaptureResource(rs, rs[..i], rs[i], captured);
      assert rs[..i + 1] == rs[..i] + [rs[i]];
    }
    assert rs[..|rs|] == rs;
  }

  lemma TargetsAreCaptured(rs: seq<Resource>, captured: map<Id, set<Owned>>, r: Resource)
    requires WellFormed(rs) && r in rs && forall q :: q in rs ==> q.id in captured
    ensures forall ref :: ref in r.references ==> ref.target in captured
  {
    forall ref | ref in r.references ensures ref.target in captured {
      assert ResourceById(rs, ref.target) in rs;
    }
  }

  // Safety.

  /** Some creation before the i-th request leaves the variable behind. */
  ghost predicate Defined(rs: seq<Resource>, o: seq<Resource>, i: nat, v: Variable)
    requires i <= |Actions(o)|
  {
    exists j :: 0 <= j < i && Actions(o)[j].action.Create? && v in RequestCaptures(rs, Actions(o)[j])
  }

  /** Every variable is captured by an earlier creation before it is read. */
  ghost predicate Safe(rs: seq<Resource>, o: seq<Resource>)
    requires WellFormed(rs) && multiset(o) == multiset(rs)
  {
    forall i, v :: 0 <= i < |Actions(o)| && Actions(o)[i].resource in rs && v in RequestReads(rs, Actions(o)[i]) ==>
        Defined(rs, o, i, v)
  }

  /** Creating the resource takes a value for the column from the resource the reference points at. */
  ghost predicate NeedsAtCreation(rs: seq<Resource>, r: Resource, c: Owned, ref: Reference) {
    c in Payload(r) && ReferenceFor(r, c) == Some(ref) && !Postponed(rs, r, ref)
  }

  predicate CreatedBefore(o: seq<Resource>, i: nat, id: Id)
    requires i <= |o|
  {
    id in Map(IdOf(), o[..i])
  }

  ghost predicate NeedsComeFirst(rs: seq<Resource>, o: seq<Resource>) {
    forall i, c, ref :: 0 <= i < |o| && NeedsAtCreation(rs, o[i], c, ref) ==> CreatedBefore(o, i, ref.target)
  }

  lemma ActionAt(o: seq<Resource>, i: nat)
    requires i < |Actions(o)|
    ensures |o| <= |Actions(o)|
    ensures i < |o| ==> Actions(o)[i] == Step(o[i], Create)
    ensures |o| <= i ==> !Actions(o)[i].action.Create?
    ensures Actions(o)[i].resource in o
  {
    ReversedHasAll(o);
    ActionsMembers(o, Actions(o)[i]);
  }

  /** What another resource's reference points at is captured when its target is created. */
  lemma TargetCaptures(rs: seq<Resource>, r: Resource, ref: Reference, c: Owned)
    requires WellFormed(rs) && r in rs && ref in r.references && c in ref.local
    ensures ref.target in Map(IdOf(), rs)
    ensures ReferencedVariable(rs, ref, c) in RequestCaptures(rs, Step(ResourceById(rs, ref.target), Create))
  {
    var target := ResourceById(rs, ref.target);
    assert Referenced(ref, c) in PointedAt(rs, target.id);
    assert Referenced(ref, c) in CapturedColumns(rs, target);
  }

  lemma CreationDefines(rs: seq<Resource>, o: seq<Resource>, j: nat, i: nat, v: Variable)
    requires j < |o| && j < i <= |Actions(o)| && v in RequestCaptures(rs, Step(o[j], Create))
    ensures Defined(rs, o, i, v)
  {
    ActionAt(o, j);
    assert Actions(o)[j].action.Create?;
  }

  lemma OwnVariablesAreDefined(rs: seq<Resource>, o: seq<Resource>, i: nat, r: Resource, v: Variable)
    requires |o| <= i <= |Actions(o)| && r in o && v in RequestCaptures(rs, Step(r, Create))
    ensures Defined(rs, o, i, v)
  {
    var j :| 0 <= j < |o| && o[j] == r;
    CreationDefines(rs, o, j, i, v);
  }

  lemma PathVariablesAreCaptured(rs: seq<Resource>, r: Resource, v: Variable)
    requires v in PathReads(r)
    ensures v in RequestCaptures(rs, Step(r, Create))
  {
    var c :| c in r.identifier && v == ColumnVariable(r, c);
    assert c in CapturedColumns(rs, r);
  }

  /** A variable read in a body is the resource's own, when updating, or belongs to the target of a reference. */
  lemma BodyReadSource(rs: seq<Resource>, r: Resource, action: Action, v: Variable) returns (owner: Resource)
    requires WellFormed(rs) && r in rs && v in BodyReads(rs, r, action)
    ensures owner in rs && v in RequestCaptures(rs, Step(owner, Create))
  {
    var c :| c in Payload(r) && ValueOf(rs, r, c, action) == Reads(v);
    if action.Update? && c in r.identifier {
      owner := r;
      PathVariablesAreCaptured(rs, r, v);
    } else {
      var ref := ReferenceFor(r, c).value;
      TargetCaptures(rs, r, ref, c);
      owner := ResourceById(rs, ref.target);
    }
  }

  lemma LaterReadsAreDefined(rs: seq<Resource>, o: seq<Resource>, i: nat, v: Variable)
    requires WellFormed(rs) && multiset(o) == multiset(rs) && |o| <= i < |Actions(o)|
    requires Actions(o)[i].resource in rs && v in RequestReads(rs, Actions(o)[i])
    ensures Defined(rs, o, i, v)
  {
    var s := Actions(o)[i];
    ActionAt(o, i);
    SameMembers(o, rs);
    if v in PathReads(s.resource) {
      PathVariablesAreCaptured(rs, s.resource, v);
      OwnVariablesAreDefined(rs, o, i, s.resource, v);
    } else {
      var owner := BodyReadSource(rs, s.resource, Update, v);
      OwnVariablesAreDefined(rs, o, i, owner, v);
    }
  }

  lemma CreationReadSource(rs: seq<Resource>, r: Resource, v: Variable) returns (c: Owned, ref: Reference)
    requires WellFormed(rs) && r in rs && v in BodyReads(rs, r, Create)
    ensures NeedsAtCreation(rs, r, c, ref) && v == ReferencedVariable(rs, ref, c)
  {
    c :| c in Payload(r) && ValueOf(rs, r, c, Create) == Reads(v);
    ref := ReferenceFor(r, c).value;
  }

  lemma NeededIsRead(rs: seq<Resource>, r: Resource, c: Owned, ref: Reference)
    requires WellFormed(rs) && r in rs && NeedsAtCreation(rs, r, c, ref)
    ensures ReferencedVariable(rs, ref, c) in RequestReads(rs, Step(r, Create))
  {
    assert ValueOf(rs, r, c, Create) == Reads(ReferencedVariable(rs, ref, c));
  }

  lemma DefinedNeedsTheTarget(rs: seq<Resource>, o: seq<Resource>, i: nat, v: Variable)
    requires i < |o| <= |Actions(o)| && Defined(rs, o, i, v)
    ensures CreatedBefore(o, i, v.resource)
  {
    var j :| 0 <= j < i && Actions(o)[j].action.Create? && v in RequestCaptures(rs, Actions(o)[j]);
    ActionAt(o, j);
    assert Map(IdOf(), o[..i])[j] == v.resource;
  }

  lemma NeedIsDefined(rs: seq<Resource>, o: seq<Resource>, i: nat, c: Owned, ref: Reference)
    requires WellFormed(rs) && multiset(o) == multiset(rs) && i < |o| <= |Actions(o)|
    requires o[i] in rs && NeedsAtCreation(rs, o[i], c, ref)
    ensures ref.target in Map(IdOf(), rs)
    ensures Defined(rs, o, i, ReferencedVariable(rs, ref, c)) <==> CreatedBefore(o, i, ref.target)
  {
    TargetCaptures(rs, o[i], ref, c);
    var v, target := ReferencedVariable(rs, ref, c), ResourceById(rs, ref.target);
    if Defined(rs, o, i, v) { DefinedNeedsTheTarget(rs, o, i, v); }
    if CreatedBefore(o, i, ref.target) {
      var j :| 0 <= j < i && Map(IdOf(), o[..i])[j] == ref.target;
      SameMembers(o, rs);
      assert o[j] in o;
      DistinctMeansEqual(IdOf(), rs, o[j], target);
      CreationDefines(rs, o, j, i, v);
    }
  }

  /**
   For any order: the collection is safe exactly when every creation comes after the creations it takes values from.
   */
  lemma SafeExactlyWhenNeedsComeFirst(rs: seq<Resource>, o: seq<Resource>)
    requires WellFormed(rs) && multiset(o) == multiset(rs)
    ensures Safe(rs, o) <==> NeedsComeFirst(rs, o)
  {
    SameMembers(o, rs);
    if Safe(rs, o) {
      forall i, c, ref | 0 <= i < |o| && NeedsAtCreation(rs, o[i], c, ref) ensures CreatedBefore(o, i, ref.target) {
        ActionAt(o, i);
        NeededIsRead(rs, o[i], c, ref);
        NeedIsDefined(rs, o, i, c, ref);
      }
    }
    if NeedsComeFirst(rs, o) {
      forall i, v | 0 <= i < |Actions(o)| && Actions(o)[i].resource in rs && v in RequestReads(rs, Actions(o)[i])
          ensures Defined(rs, o, i, v) {
        ActionAt(o, i);
        if i < |o| {
          var c, ref := CreationReadSource(rs, o[i], v);
          NeedIsDefined(rs, o, i, c, ref);
        } else {
          LaterReadsAreDefined(rs, o, i, v);
        }
      }
    }
  }
}
