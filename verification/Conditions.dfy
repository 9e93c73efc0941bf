/** The cluster's condition list: one entry per condition type, with a transition time that
    moves only with the status. */
module Conditions {
  import opened Api
  import Search

  datatype Kind =
    | VersionChecked | LeaderChecked
    | InfoUpdatedChecked(m: Member) | MemberVersionChecked(m: Member) | ReplicaChecked(m: Member)
    | ReadyChecked(m: Member) | MembersChecked(m: Member) | SyncChecked(m: Member)
    | ExecutorPVCChecked

  datatype Value = True | False | Undetermined

  datatype Condition = Condition(kind: Kind, value: Value, since: int)

  function KindOf(c: Condition): Kind { c.kind }

  function FindPos(kind: Kind, conds: seq<Condition>): (pos: int)
    ensures -1 <= pos < |conds|
    ensures pos >= 0 ==> conds[pos].kind == kind
    ensures forall i | 0 <= i < |conds| :: conds[i].kind == kind ==> 0 <= pos <= i
  {
    Search.FindPos(kind, conds, KindOf)
  }

  function Find(conds: seq<Condition>, kind: Kind): Option<Condition> {
    var pos := FindPos(kind, conds);
    if pos >= 0 then Some(conds[pos]) else None
  }

  predicate IsTrue(conds: seq<Condition>, kind: Kind) {
    var c := Find(conds, kind);
    c.Some? && c.value.value == True
  }

  predicate IsFalse(conds: seq<Condition>, kind: Kind) {
    var c := Find(conds, kind);
    c.Some? && c.value.value == False
  }

  ghost predicate UniqueKinds(conds: seq<Condition>) {
    forall i, j | 0 <= i < j < |conds| :: conds[i].kind != conds[j].kind
  }

  /** Find-or-create, then set; an entry that already has the value keeps its time. */
  function Set(conds: seq<Condition>, kind: Kind, value: Value, now: int): (r: seq<Condition>)
    requires value != Undetermined
    ensures forall k | k != kind :: Find(r, k) == Find(conds, k)
    ensures Find(r, kind) == Some(
      var was := Find(conds, kind);
      if was.Some? && was.value.value == value then was.value else Condition(kind, value, now))
    ensures UniqueKinds(conds) ==> UniqueKinds(r)
  {
    var pos := FindPos(kind, conds);
    var r := if pos >= 0
             then if conds[pos].value == value then conds else conds[pos := Condition(kind, value, now)]
             else conds + [Condition(kind, value, now)];
    assert forall k | k != kind :: Find(r, k) == Find(conds, k) by {
      forall k ensures k != kind ==> Find(r, k) == Find(conds, k) {
        Search.SamePosition(conds, r, k, KindOf);
      }
    }
    assert FindPos(kind, r) == if pos >= 0 then pos else |conds| by {
      Search.SamePosition(conds, r, kind, KindOf);
    }
    r
  }

  /** The checks that condition Sync establishes when both members are local and the cluster
      is not heterogeneous. */
  ghost predicate AllChecksTrue(conds: seq<Condition>) {
    && IsTrue(conds, VersionChecked) && IsTrue(conds, LeaderChecked) && IsTrue(conds, ExecutorPVCChecked)
    && forall m: Member ::
         && IsTrue(conds, InfoUpdatedChecked(m)) && IsTrue(conds, MemberVersionChecked(m))
         && IsTrue(conds, ReplicaChecked(m)) && IsTrue(conds, ReadyChecked(m))
         && IsTrue(conds, MembersChecked(m)) && IsTrue(conds, SyncChecked(m))
  }

  /** From `before` to `after` conditions only became True, and kept their time if they
      already were True. */
  ghost predicate OnlyBecameTrue(before: seq<Condition>, after: seq<Condition>) {
    forall k ::
      || Find(after, k) == Find(before, k)
      || (IsTrue(after, k) && !IsTrue(before, k))
  }
}
