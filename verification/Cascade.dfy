/** Which classifiers and relationships disappear together with a deleted classifier. */
module Cascade {

  import opened Uml

  /** r has an end among ids, so it cannot outlive them. */
  predicate Dangles(r: Relationship, ids: set<Id>) {
    r.source.elementId in ids || r.target.elementId in ids
  }

  /** ids is closed under "a relationship touching a deleted classifier deletes its association class". */
  ghost predicate Closed(relationships: seq<Relationship>, ids: set<Id>) {
    forall r :: r in relationships && Dangles(r, ids) && r.associationClassId.Some? ==>
      r.associationClassId.value in ids
  }

  ghost predicate LeastClosed(relationships: seq<Relationship>, initial: set<Id>, ids: set<Id>) {
    && initial <= ids
    && Closed(relationships, ids)
    && forall other :: initial <= other && Closed(relationships, other) ==> ids <= other
  }

  function AssociationClassIds(relationships: seq<Relationship>): set<Id> {
    set r | r in relationships && r.associationClassId.Some? :: r.associationClassId.value
  }

  function Grown(relationships: seq<Relationship>, ids: set<Id>): set<Id> {
    ids + set r | r in relationships && r.associationClassId.Some? && Dangles(r, ids) :: r.associationClassId.value
  }

  /** The ids deleted with initial, by repeating one round until nothing new dangles. */
  function Deleted(relationships: seq<Relationship>, initial: set<Id>): (ids: set<Id>)
    ensures LeastClosed(relationships, initial, ids)
    decreases AssociationClassIds(relationships) - initial
  {
    var next := Grown(relationships, initial);
    if next == initial then
      initial
    else
      assert exists id :: id in next && id !in initial;
      var ids := Deleted(relationships, next);
      assert forall other :: initial <= other && Closed(relationships, other) ==> next <= other;
      ids
  }

  /** Two least closed sets coincide, so the result does not depend on the order of the rounds. */
  lemma LeastClosedIsUnique(relationships: seq<Relationship>, initial: set<Id>, a: set<Id>, b: set<Id>)
    requires LeastClosed(relationships, initial, a) && LeastClosed(relationships, initial, b)
    ensures a == b
  {
  }
}
