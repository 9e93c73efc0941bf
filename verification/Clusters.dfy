/** The TiflowCluster object: its specification, the status that reconciles update in place,
    and the accessors and small updates that the managers share. */
module Clusters {
  import opened Api
  import SyncEntries
  import Conditions

  datatype MemberStatus = MemberStatus(
    phase: Phase, syncTypes: seq<SyncEntries.Entry>, sts: Option<StsStatus>,
    members: map<string, MemberInfo>, peerMembers: map<string, MemberInfo>, failureMembers: nat)
  {
    function Stored(name: SyncName): Option<SyncStatus> { SyncEntries.Stored(syncTypes, name) }

    predicate IsPending(name: SyncName) {
      var s := Stored(name);
      s.Some? && s.value != Completed
    }

    predicate Scaling() { phase == ScalingIn || phase == ScalingOut }

    function ActualReplicas(): nat { if sts.None? then 0 else sts.value.replicas }
    function ReadyReplicas(): nat { if sts.None? then 0 else sts.value.readyReplicas }
    function CurrentReplicas(): nat { if sts.None? then 0 else sts.value.currentReplicas }
    function UpdatedReplicas(): nat { if sts.None? then 0 else sts.value.updatedReplicas }
  }

  const NEW_MEMBER_STATUS: MemberStatus := MemberStatus(NoPhase, [], None, map[], map[], 0)

  datatype Status = Status(
    master: MemberStatus, executor: MemberStatus, conditions: seq<Conditions.Condition>,
    leader: string, clusterPhase: ClusterPhase)
  {
    function Of(m: Member): MemberStatus { if m.Master? then master else executor }

    function With(m: Member, s: MemberStatus): Status {
      if m.Master? then this.(master := s) else this.(executor := s)
    }

    predicate IsTrue(kind: Conditions.Kind) { Conditions.IsTrue(conditions, kind) }
    predicate IsFalse(kind: Conditions.Kind) { Conditions.IsFalse(conditions, kind) }
  }

  /** What Kubernetes stores for a cluster that no reconcile has seen. */
  const NEW_STATUS: Status := Status(NEW_MEMBER_STATUS, NEW_MEMBER_STATUS, [], "", ClusterUnset)

  /** Desired replicas count the failure members too. Without a local executor they are 0;
      without a local master the Go code dereferences nil, which callers model as a panic. */
  function DesiredReplicas(spec: Spec, st: Status, m: Member): nat
    requires m.Master? ==> spec.master.Some?
  {
    if spec.Of(m).None? then 0 else spec.Of(m).value.replicas + st.Of(m).failureMembers
  }

  function Mark(st: Status, m: Member, name: SyncName, status: SyncStatus): Status {
    st.With(m, st.Of(m).(syncTypes := SyncEntries.SetStatus(st.Of(m).syncTypes, name, status)))
  }

  function SetPhase(st: Status, m: Member, phase: Phase): Status {
    st.With(m, st.Of(m).(phase := phase))
  }

  function SetSts(st: Status, m: Member, sts: StsStatus): Status {
    st.With(m, st.Of(m).(sts := Some(sts)))
  }

  function SetCondition(st: Status, kind: Conditions.Kind, value: bool, now: int): Status {
    st.(conditions := Conditions.Set(st.conditions, kind, if value then Conditions.True else Conditions.False, now))
  }

  ghost predicate WellFormed(st: Status) {
    && SyncEntries.UniqueNames(st.master.syncTypes)
    && SyncEntries.UniqueNames(st.executor.syncTypes)
    && Conditions.UniqueKinds(st.conditions)
  }

  /** The in-memory object that one reconcile works on. */
  class Cluster {
    const spec: Spec
    var status: Status

    constructor (spec: Spec, status: Status)
      ensures this.spec == spec && this.status == status
    {
      this.spec := spec;
      this.status := status;
    }

    /** Ongoing, Completed, Failed and Unknown of the status package. */
    method MarkSync(m: Member, name: SyncName, s: SyncStatus)
      modifies this
      ensures status == Mark(old(status), m, name, s)
    {
      var entries := status.Of(m).syncTypes;
      var pos := SyncEntries.FindPos(name, entries);
      if pos < 0 {
        entries := entries + [SyncEntries.Entry(name, Unknown)];
        pos := |entries| - 1;
      }
      entries := entries[pos := entries[pos].(status := s)];
      status := status.With(m, status.Of(m).(syncTypes := entries));
    }

    /** SetTrue and SetFalse of the condition package. */
    method SetConditionStatus(kind: Conditions.Kind, value: bool, now: int)
      modifies this
      ensures status == SetCondition(old(status), kind, value, now)
    {
      var conds := status.conditions;
      var pos := Conditions.FindPos(kind, conds);
      if pos < 0 {
        conds := conds + [Conditions.Condition(kind, Conditions.Undetermined, now)];
        pos := |conds| - 1;
      }
      var wanted := if value then Conditions.True else Conditions.False;
      if conds[pos].value != wanted {
        conds := conds[pos := Conditions.Condition(kind, wanted, now)];
      }
      status := status.(conditions := conds);
    }
  }
}
