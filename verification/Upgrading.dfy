/** gracefulUpgrade: walk the ordinals downward and lower the rolling-update partition to the
    first pod that is not updated, provided every pod above it is updated and fit. */
module Upgrading {
  import opened Api
  import opened Clusters
  import Conditions
  import SyncEntries
  import Names
  import LeaderNames

  datatype Strategy = Strategy(onDelete: bool, partition: Option<int>)

  /** The StatefulSet as the manager read it: `templateEqual` compares the desired pod spec with
      the last applied one, `lastAppliedOk` says whether the latter can be read back. */
  datatype StsObject = StsObject(replicas: nat, strategy: Strategy, templateEqual: bool, lastAppliedOk: bool)

  /** The set about to be written; `keepTemplate` keeps the last applied pod spec. */
  datatype Desired = Desired(replicas: nat, strategy: Strategy, keepTemplate: bool)

  function WithPartition(d: Desired, partition: int): Desired {
    d.(strategy := d.strategy.(partition := Some(partition)))
  }

  datatype Pod = Unreadable | Pod(revision: Option<string>, ready: bool)

  predicate Updated(pod: Pod, target: string) { pod.Pod? && pod.revision == Some(target) }

  datatype Verdict = Abort | Next | Release

  /** One look at one pod. `fit` is the member-specific condition on an updated pod, `guarded`
      the one that holds back a pod that is not. */
  function Judge(pod: Pod, target: string, fit: bool, guarded: bool): Verdict {
    if pod.Unreadable? || pod.revision.None? then Abort
    else if Updated(pod, target) then (if pod.ready && fit then Next else Abort)
    else if guarded then Abort
    else Release
  }

  /** An updated executor must be a member again; masters are not asked. */
  predicate Fit(spec: Spec, st: Status, m: Member, ordinal: nat) {
    m.Executor? ==> Names.RegisteredName(spec.name, m, ordinal, spec.namespace) in st.executor.members
  }

  /** A master that looks like the leader is asked to resign first. */
  predicate Guarded(spec: Spec, st: Status, m: Member, ordinal: nat) {
    m.Master? && LeaderNames.UpgraderSeesLeader(st.leader, spec.name, ordinal) && st.master.ActualReplicas() > 1
  }

  datatype Scanned = Stopped | ReleaseAt(ordinal: nat) | AllUpdated

  function Look(spec: Spec, st: Status, m: Member, target: string, pods: nat -> Pod, i: nat): Verdict {
    Judge(pods(i), target, Fit(spec, st, m, i), Guarded(spec, st, m, i))
  }

  /** The downward walk over the ordinals below `n`. */
  function Scan(spec: Spec, st: Status, m: Member, target: string, pods: nat -> Pod, n: nat): Scanned {
    if n == 0 then AllUpdated
    else match Look(spec, st, m, target, pods, n - 1)
      case Abort => Stopped
      case Next => Scan(spec, st, m, target, pods, n - 1)
      case Release => ReleaseAt(n - 1)
  }

  datatype Result = Result(status: Status, outcome: Outcome, desired: Desired)

  function GracefulUpgrade(spec: Spec, st: Status, m: Member, existing: StsObject, desired: Desired,
                           pods: nat -> Pod, now: int): Result
  {
    var s := Mark(SetCondition(st, Conditions.SyncChecked(m), false, now), m, UpgradeType, Ongoing);
    if s.Of(m).Scaling() then
      Result(s, if existing.lastAppliedOk then Done else OtherErr, desired.(keepTemplate := existing.lastAppliedOk))
    else
      var s := SetPhase(s, m, Upgrading);
      if !existing.templateEqual then Result(s, Done, desired)
      else if s.Of(m).sts.None? then Result(s, Panic, desired)
      else if s.Of(m).sts.value.updateRevision == s.Of(m).sts.value.currentRevision then Result(s, Done, desired)
      else if existing.strategy.onDelete || existing.strategy.partition.None? then
        Result(s, Done, desired.(strategy := existing.strategy))
      else
        var d := WithPartition(desired, existing.strategy.partition.value);
        match Scan(spec, s, m, s.Of(m).sts.value.updateRevision, pods, existing.replicas)
        case Stopped => Result(s, OtherErr, d)
        case ReleaseAt(i) => Result(s, Done, WithPartition(d, i))
        case AllUpdated => Result(s, Done, d)
  }

  method RunGracefulUpgrade(tc: Cluster, m: Member, existing: StsObject, desired: Desired, pods: nat -> Pod, now: int)
    returns (outcome: Outcome, d: Desired)
    modifies tc
    ensures Result(tc.status, outcome, d) == GracefulUpgrade(tc.spec, old(tc.status), m, existing, desired, pods, now)
  {
    hide Conditions.Set, SyncEntries.SetStatus, Look;
    d := desired;
    tc.SetConditionStatus(Conditions.SyncChecked(m), false, now);
    tc.MarkSync(m, UpgradeType, Ongoing);
    if tc.status.Of(m).Scaling() {
      d := d.(keepTemplate := existing.lastAppliedOk);
      return (if existing.lastAppliedOk then Done else OtherErr), d;
    }
    tc.status := SetPhase(tc.status, m, Upgrading);
    if !existing.templateEqual { return Done, d; }
    if tc.status.Of(m).sts == None { return Panic, d; }
    var sts := tc.status.Of(m).sts.value;
    if sts.updateRevision == sts.currentRevision { return Done, d; }
    if existing.strategy.onDelete || existing.strategy.partition == None {
      d := d.(strategy := existing.strategy);
      return Done, d;
    }
    d := WithPartition(d, existing.strategy.partition.value);
    var stopped := RunScan(tc, m, sts.updateRevision, pods, existing.replicas);
    if stopped == Stopped { return OtherErr, d; }
    if stopped != AllUpdated { d := WithPartition(d, stopped.ordinal); }
    return Done, d;
  }

  method RunScan(tc: Cluster, m: Member, target: string, pods: nat -> Pod, n: nat) returns (r: Scanned)
    ensures r == Scan(tc.spec, tc.status, m, target, pods, n)
  {
    hide Look;
    for i := n downto 0
      invariant Scan(tc.spec, tc.status, m, target, pods, i) == Scan(tc.spec, tc.status, m, target, pods, n)
    {
      var verdict := Look(tc.spec, tc.status, m, target, pods, i);
      if verdict == Abort { return Stopped; }
      if verdict == Release { return ReleaseAt(i); }
    }
    return AllUpdated;
  }

  /** A pod above the release point was seen updated, ready and, for executors, registered. */
  ghost predicate SeenFit(spec: Spec, st: Status, m: Member, target: string, pods: nat -> Pod, i: nat) {
    Updated(pods(i), target) && pods(i).ready && Fit(spec, st, m, i)
  }

  /** The walk releases ordinal i exactly when i carries another revision and is not guarded, and
      every pod above it is updated and fit; it finds all updated exactly when all are. */
  lemma {:induction false} ScanMeaning(spec: Spec, st: Status, m: Member, target: string, pods: nat -> Pod, n: nat,
                                       i: nat)
    ensures Scan(spec, st, m, target, pods, n) == ReleaseAt(i) <==>
      && i < n && pods(i).Pod? && pods(i).revision.Some? && !Updated(pods(i), target) && !Guarded(spec, st, m, i)
      && forall j: nat | i < j < n :: SeenFit(spec, st, m, target, pods, j)
    ensures Scan(spec, st, m, target, pods, n) == AllUpdated <==>
      forall j: nat | j < n :: SeenFit(spec, st, m, target, pods, j)
  {
    hide Fit, Guarded;
    if n > 0 {
      ScanMeaning(spec, st, m, target, pods, n - 1, i);
      assert SeenFit(spec, st, m, target, pods, n - 1) <==> Look(spec, st, m, target, pods, n - 1) == Next;
    }
  }
}
