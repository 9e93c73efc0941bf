/** The status manager: completes sync entries by what the cluster shows and derives the phases. */
module PhaseSync {
  import opened Api
  import opened Clusters
  import SyncEntries
  import Conditions

  /** What the API server answers while an upgrade entry is examined. */
  datatype StsView = StsView(
    currentRevision: string, updateRevision: string,
    generation: int, observedGeneration: int, specReplicas: nat, statusReplicas: nat)

  datatype Answers = Answers(
    getSts: Option<StsView>, selectorOk: bool, podRevisions: Option<seq<Option<string>>>)

  predicate IsUpgrading(v: StsView) {
    || v.currentRevision != v.updateRevision
    || (v.generation > v.observedGeneration && v.specReplicas == v.statusReplicas)
  }

  // ----- specification: one step at a time -----

  datatype Step = Crash | Unchanged | Changed(status: Status)

  function CreateStep(spec: Spec, st: Status, m: Member): Step {
    if !st.Of(m).IsPending(CreateType) then Unchanged
    else if m.Master? && spec.master.None? then Crash
    else if DesiredReplicas(spec, st, m) == st.Of(m).ReadyReplicas()
    then Changed(Mark(st, m, CreateType, Completed))
    else Unchanged
  }

  /** A pending scale-out hides a pending scale-in. */
  function ScaleStep(spec: Spec, st: Status, m: Member): Step {
    var name := if st.Of(m).IsPending(ScaleOutType) then ScaleOutType else ScaleInType;
    if !st.Of(m).IsPending(name) then Unchanged
    else if m.Master? && spec.master.None? then Crash
    else if DesiredReplicas(spec, st, m) == st.Of(m).CurrentReplicas()
    then Changed(Mark(st, m, name, Completed))
    else Unchanged
  }

  datatype Verdict = AllCurrent | Stale | Unlabelled | NilSnapshot

  /** The pods are read in list order and the first that is not current decides. */
  function JudgePods(pods: seq<Option<string>>, sts: Option<StsStatus>): Verdict {
    if pods == [] then AllCurrent
    else if pods[0].None? then Unlabelled
    else if sts.None? then NilSnapshot
    else if pods[0].value != sts.value.updateRevision then Stale
    else JudgePods(pods[1..], sts)
  }

  function UpgradeStep(st: Status, m: Member, a: Answers): Step {
    if !st.Of(m).IsPending(UpgradeType) then Unchanged
    else if a.getSts.None? then Changed(Mark(st, m, UpgradeType, Unknown))
    else if IsUpgrading(a.getSts.value) then Unchanged
    else if !a.selectorOk || a.podRevisions.None? then Changed(Mark(st, m, UpgradeType, Failed))
    else match JudgePods(a.podRevisions.value, st.Of(m).sts)
      case AllCurrent => Changed(Mark(st, m, UpgradeType, Completed))
      case Stale => Unchanged
      case Unlabelled => Changed(Mark(st, m, UpgradeType, Failed))
      case NilSnapshot => Crash
  }

  function FromCluster(spec: Spec, st: Status, m: Member, a: Answers): Step {
    var create := CreateStep(spec, st, m);
    if create != Unchanged then create
    else
      var scale := ScaleStep(spec, st, m);
      if scale != Unchanged then scale else UpgradeStep(st, m, a)
  }

  /** The phase that the entries call for: the first one not Completed decides. */
  function PhaseFor(entries: seq<SyncEntries.Entry>): (p: Phase)
    ensures p == Running <==> SyncEntries.AllCompleted(entries)
    ensures p == Upgrading && SyncEntries.UniqueNames(entries) ==>
      SyncEntries.Stored(entries, UpgradeType) == Some(Ongoing)
  {
    if entries == [] then Running
    else
      var e := entries[0];
      if e.status == Completed then
        var rest := PhaseFor(entries[1..]);
        assert SyncEntries.AllCompleted(entries) <==> SyncEntries.AllCompleted(entries[1..]);
        rest
      else if e.status == Failed then FailedPhase
      else if e.status == Unknown then UnknownPhase
      else PhaseOf(e.name)
  }

  predicate Shortcut(spec: Spec, m: Member) {
    if m.Master? then spec.heterogeneous && spec.master.None? else spec.executor.None?
  }

  /** SyncPhase; None is a crash. When the member's check condition is True and the cluster
      completes nothing, the phase stays as it was. */
  function SyncPhase(spec: Spec, st: Status, m: Member, a: Answers): Option<Status> {
    if Shortcut(spec, m) then Some(SetPhase(st, m, Running))
    else if st.IsTrue(Conditions.SyncChecked(m)) then
      match FromCluster(spec, st, m, a)
      case Crash => None
      case Unchanged => Some(st)
      case Changed(s) => Some(SetPhase(s, m, PhaseFor(s.Of(m).syncTypes)))
    else Some(SetPhase(st, m, PhaseFor(st.Of(m).syncTypes)))
  }

  function ClusterPhaseFor(master: Phase, executor: Phase): ClusterPhase {
    if master == FailedPhase || executor == FailedPhase then ClusterFailed
    else if master == UnknownPhase || executor == UnknownPhase then ClusterUnknown
    else if master == Running && executor == Running then ClusterRunning
    else ClusterReconciling
  }

  function FirstReconcile(st: Status): Status {
    var s1 := if st.master.phase == NoPhase then SetPhase(st, Master, Starting) else st;
    var s2 := if s1.executor.phase == NoPhase then SetPhase(s1, Executor, Starting) else s1;
    s2.(clusterPhase := ClusterStarting)
  }

  /** The status an update writes: both members' phases, then the cluster's. */
  function SyncClusterPhase(spec: Spec, st: Status, master: Answers, executor: Answers): Option<Status> {
    if st.clusterPhase == ClusterUnset then Some(FirstReconcile(st))
    else match SyncPhase(spec, st, Master, master)
      case None => None
      case Some(s1) =>
        match SyncPhase(spec, s1, Executor, executor)
        case None => None
        case Some(s2) => Some(s2.(clusterPhase := ClusterPhaseFor(s2.master.phase, s2.executor.phase)))
  }

  // ----- the code, statement by statement -----

  datatype Reply = Crashed | No | Yes

  method SyncCreatePhase(tc: Cluster, m: Member) returns (r: Reply)
    modifies tc
    ensures Agrees(CreateStep(tc.spec, old(tc.status), m), r, old(tc.status), tc.status)
  {
    var entries := tc.status.Of(m).syncTypes;
    var index := SyncEntries.FindPos(CreateType, entries);
    if index < 0 || entries[index].status == Completed { return No; }
    if m == Master && tc.spec.master == None { return Crashed; }
    if DesiredReplicas(tc.spec, tc.status, m) == tc.status.Of(m).ReadyReplicas() {
      tc.MarkSync(m, CreateType, Completed);
      return Yes;
    }
    return No;
  }

  method SyncScalePhase(tc: Cluster, m: Member) returns (r: Reply)
    modifies tc
    ensures Agrees(ScaleStep(tc.spec, old(tc.status), m), r, old(tc.status), tc.status)
  {
    var entries := tc.status.Of(m).syncTypes;
    var name := ScaleOutType;
    var index := SyncEntries.FindPos(name, entries);
    if index < 0 || entries[index].status == Completed {
      name := ScaleInType;
      index := SyncEntries.FindPos(name, entries);
    }
    if index < 0 || entries[index].status == Completed { return No; }
    if m == Master && tc.spec.master == None { return Crashed; }
    if DesiredReplicas(tc.spec, tc.status, m) == tc.status.Of(m).CurrentReplicas() {
      tc.MarkSync(m, name, Completed);
      return Yes;
    }
    return No;
  }

  method SyncUpgradePhase(tc: Cluster, m: Member, a: Answers) returns (r: Reply)
    modifies tc
    ensures Agrees(UpgradeStep(old(tc.status), m, a), r, old(tc.status), tc.status)
  {
    var entries := tc.status.Of(m).syncTypes;
    var index := SyncEntries.FindPos(UpgradeType, entries);
    if index < 0 || entries[index].status == Completed { return No; }
    if a.getSts == None {
      tc.MarkSync(m, UpgradeType, Unknown);
      return Yes;
    }
    if IsUpgrading(a.getSts.value) { return No; }
    if !a.selectorOk || a.podRevisions == None {
      tc.MarkSync(m, UpgradeType, Failed);
      return Yes;
    }
    var pods := a.podRevisions.value;
    for i := 0 to |pods|
      invariant tc.status == old(tc.status)
      invariant JudgePods(pods[i..], tc.status.Of(m).sts) == JudgePods(pods, tc.status.Of(m).sts)
    {
      if pods[i] == None {
        tc.MarkSync(m, UpgradeType, Failed);
        return Yes;
      }
      if tc.status.Of(m).sts == None { return Crashed; }
      if pods[i].value != tc.status.Of(m).sts.value.updateRevision { return No; }
    }
    tc.MarkSync(m, UpgradeType, Completed);
    return Yes;
  }

  /** A reply and the state it leaves, against a specified step. */
  predicate Agrees(step: Step, r: Reply, before: Status, after: Status) {
    match step
    case Crash => r == Crashed
    case Unchanged => r == No && after == before
    case Changed(s) => r == Yes && after == s
  }

  method SyncPhaseFromCluster(tc: Cluster, m: Member, a: Answers) returns (r: Reply)
    modifies tc
    ensures Agrees(FromCluster(tc.spec, old(tc.status), m, a), r, old(tc.status), tc.status)
  {
    hide CreateStep, ScaleStep, UpgradeStep;
    r := SyncCreatePhase(tc, m);
    if r == No { r := SyncScalePhase(tc, m); }
    if r == No { r := SyncUpgradePhase(tc, m, a); }
  }

  method SyncMemberPhase(tc: Cluster, m: Member, a: Answers) returns (crashed: bool)
    modifies tc
    ensures crashed <==> SyncPhase(tc.spec, old(tc.status), m, a).None?
    ensures !crashed ==> Some(tc.status) == SyncPhase(tc.spec, old(tc.status), m, a)
  {
    hide FromCluster;
    if (if m == Master then tc.spec.heterogeneous && tc.spec.master == None else tc.spec.executor == None) {
      tc.status := SetPhase(tc.status, m, Running);
      return false;
    }
    if tc.status.IsTrue(Conditions.SyncChecked(m)) {
      var r := SyncPhaseFromCluster(tc, m, a);
      if r == Crashed { return true; }
      if r == No { return false; }
    }
    var entries := tc.status.Of(m).syncTypes;
    for i := 0 to |entries|
      invariant tc.status.Of(m).syncTypes == entries
      invariant PhaseFor(entries[i..]) == PhaseFor(entries)
      invariant SyncPhase(tc.spec, old(tc.status), m, a) == Some(SetPhase(tc.status, m, PhaseFor(entries)))
    {
      var sync := entries[i];
      assert entries[i..][1..] == entries[i + 1..];
      if sync.status == Completed { continue; }
      var phase := if sync.status == Failed then FailedPhase
                   else if sync.status == Unknown then UnknownPhase
                   else PhaseOf(sync.name);
      tc.status := SetPhase(tc.status, m, phase);
      return false;
    }
    tc.status := SetPhase(tc.status, m, Running);
    return false;
  }

  method SyncTiflowClusterPhase(tc: Cluster, master: Answers, executor: Answers) returns (crashed: bool)
    modifies tc
    ensures crashed <==> SyncClusterPhase(tc.spec, old(tc.status), master, executor).None?
    ensures !crashed ==> Some(tc.status) == SyncClusterPhase(tc.spec, old(tc.status), master, executor)
  {
    if tc.status.clusterPhase == ClusterUnset {
      if tc.status.master.phase == NoPhase { tc.status := SetPhase(tc.status, Master, Starting); }
      if tc.status.executor.phase == NoPhase { tc.status := SetPhase(tc.status, Executor, Starting); }
      tc.status := tc.status.(clusterPhase := ClusterStarting);
      return false;
    }
    crashed := SyncMemberPhase(tc, Master, master);
    if crashed { return; }
    crashed := SyncMemberPhase(tc, Executor, executor);
    if crashed { return; }
    var m, e := tc.status.master.phase, tc.status.executor.phase;
    var phase := ClusterReconciling;
    if m == FailedPhase || e == FailedPhase { phase := ClusterFailed; }
    else if m == UnknownPhase || e == UnknownPhase { phase := ClusterUnknown; }
    else if m == Running && e == Running { phase := ClusterRunning; }
    tc.status := tc.status.(clusterPhase := phase);
  }
}
