/** Convergence: once the cluster is settled, every reconcile completes one entry per member
    until both show Running. */
module Convergence {
  import opened Api
  import opened Clusters
  import opened Reconciling
  import RunningSoundness
  import Conditions
  import SyncEntries
  import Managers
  import Scaling
  import Upgrading
  import Verification
  import PhaseSync
  import Rollout
  import PhaseProperties
  import Members

  /** The snapshots that a settled cluster answers with. */
  datatype Snapshots = Snapshots(master: StsStatus, executor: StsStatus) {
    function Of(m: Member): StsStatus { if m.Master? then master else executor }
  }

  /** A member's set is found as specified. */
  ghost predicate SetInPlace(e: Event, st: Status, m: Member) {
    var a := e.answers.Manager(m);
    && e.spec.Of(m).Some? && a.servicesOk && a.configOk && a.updateOk
    && a.sts.StsFound? && a.sts.existing.templateEqual
    && a.sts.existing.replicas == Managers.NewSet(e.spec, st, m).replicas
  }

  /** Its snapshot shows that nothing is left to do, and every pod has registered. */
  ghost predicate InOrder(e: Event, st: Status, m: Member, sts: StsStatus) {
    && e.spec.Of(m).Some? && sts.currentRevision == sts.updateRevision
    && DesiredReplicas(e.spec, st, m) == sts.currentReplicas == sts.readyReplicas
    && e.answers.Check(m).sts == Some(sts) && Verification.Answered(e.spec, st, m, e.answers.Check(m))
  }

  /** The status manager, too, sees the rollout finished. */
  ghost predicate RolledOut(e: Event, m: Member, sts: StsStatus) {
    var p := e.answers.Phase(m);
    && p.getSts.Some? && !PhaseSync.IsUpgrading(p.getSts.value) && p.selectorOk && p.podRevisions.Some?
    && forall i | 0 <= i < |p.podRevisions.value| :: p.podRevisions.value[i] == Some(sts.updateRevision)
  }

  ghost predicate SettledMember(e: Event, st: Status, m: Member, sts: StsStatus) {
    SetInPlace(e, st, m) && InOrder(e, st, m, sts) && RolledOut(e, m, sts)
  }

  ghost predicate SettledEvent(e: Event, st: Status, at: Snapshots) {
    && e.answers.fetched && e.answers.stored && !e.spec.heterogeneous && !e.spec.forceUpgrade
    && SettledMember(e, st, Master, at.master) && SettledMember(e, st, Executor, at.executor)
  }

  ghost function PendingOf(st: Status, m: Member): set<SyncName> { PhaseProperties.PendingOf(st, m) }

  /** No pod is left to release: the recorded snapshot is up to date, or the scan, if there is
      one, finds every pod updated and fit. */
  ghost predicate Released(e: Event, st: Status, m: Member) {
    var a := e.answers.Manager(m);
    || Verification.UpToDate(st.Of(m).sts)
    || (st.Of(m).sts.Some? && a.sts.StsFound?
        && (a.sts.existing.strategy.onDelete || a.sts.existing.strategy.partition.None?
            || AllFit(e.spec, st, m, a.sts.existing, a.pods)))
  }

  /** That matters only while an upgrade is on record. */
  ghost predicate NothingToRelease(e: Event, st: Status, m: Member) {
    st.Of(m).phase == Upgrading ==> Released(e, st, m)
  }

  ghost predicate AllFit(spec: Spec, st: Status, m: Member, existing: Upgrading.StsObject, pods: nat -> Upgrading.Pod)
    requires st.Of(m).sts.Some?
  {
    forall i: nat | i < existing.replicas ::
      Upgrading.SeenFit(spec, st, m, st.Of(m).sts.value.updateRevision, pods, i)
  }

  /** What settled reconciles keep of a member. */
  ghost predicate Tracked(st: Status, m: Member) {
    && PendingOf(st, m) <= OPERATOR_NAMES
    && (st.Of(m).phase == Upgrading ==> st.Of(m).IsPending(UpgradeType))
  }

  ghost predicate OnTrack(st: Status) {
    WellFormed(st) && st.clusterPhase != ClusterUnset && Tracked(st, Master) && Tracked(st, Executor)
  }

  /** A manager, a check or Apply leaves the member's progress as it was. */
  ghost predicate SameProgress(a: Status, b: Status, m: Member) {
    && b.Of(m).phase == a.Of(m).phase && b.Of(m).failureMembers == a.Of(m).failureMembers
    && (b.Of(m).syncTypes == a.Of(m).syncTypes
        || (a.Of(m).phase == Upgrading
            && b.Of(m).syncTypes == SyncEntries.SetStatus(a.Of(m).syncTypes, UpgradeType, Ongoing)))
  }

  /** With nothing left to release an upgrade under way is only declared ongoing once more. */
  lemma {:induction false} UpgradeIsIdle(e: Event, st: Status, m: Member, d: Upgrading.Desired)
    requires st.Of(m).phase == Upgrading && NothingToRelease(e, st, m)
    requires e.answers.Manager(m).sts.StsFound? && e.answers.Manager(m).sts.existing.templateEqual
    ensures var a := e.answers.Manager(m);
      var u := Upgrading.GracefulUpgrade(e.spec, st, m, a.sts.existing, d, a.pods, e.now);
      && u.outcome == Done && SameProgress(st, u.status, m)
      && u.status.Of(m).sts == st.Of(m).sts && u.status.Of(m).members == st.Of(m).members
  {
    hide Upgrading.Scan, Conditions.Set, SyncEntries.SetStatus, Upgrading.SeenFit;
    var a := e.answers.Manager(m);
    Managers.UpgradeStatus(e.spec, st, m, a.sts.existing, d, a.pods, e.now);
    if !Verification.UpToDate(st.Of(m).sts) && !a.sts.existing.strategy.onDelete
       && a.sts.existing.strategy.partition.Some? {
      var c := Rollout.Setting(e.spec, m, st.Of(m).sts.value.updateRevision, a.sts.existing.replicas);
      Upgrading.ScanMeaning(e.spec, st, m, c.target, a.pods, c.replicas, 0);
      Rollout.UpgradeScans(c, st, a.sts.existing, d, a.pods, e.now, a.sts.existing.strategy.partition.value);
    }
  }

  lemma {:induction false} AdjustIsIdle(e: Event, st: Status, m: Member)
    requires SetInPlace(e, st, m) && NothingToRelease(e, st, m)
    ensures var a := e.answers.Manager(m);
      var r := Managers.Adjust(e.spec, st, m, a.sts.existing, a, e.now);
      && r.outcome == Done && SameProgress(st, r.status, m)
      && r.status.Of(m).sts == st.Of(m).sts && r.status.Of(m).members == st.Of(m).members
  {
    hide Upgrading.GracefulUpgrade, Scaling.ScaleOut, Scaling.ScaleIn, Managers.NewSet, NothingToRelease;
    if st.Of(m).phase == Upgrading {
      UpgradeIsIdle(e, st, m, Managers.NewSet(e.spec, st, m));
    }
  }

  /** A settled manager does nothing but, at most, declare a running upgrade ongoing once more. */
  lemma {:induction false} ManagerIsIdle(e: Event, st: Status, m: Member)
    requires SetInPlace(e, st, m) && !e.spec.forceUpgrade && NothingToRelease(e, st, m)
    ensures var r := Managers.Sync(e.spec, st, m, e.answers.Manager(m), e.now);
      && r.outcome == Done && SameProgress(st, r.status, m)
      && r.status.Of(m).sts == st.Of(m).sts && r.status.Of(m).members == st.Of(m).members
  {
    hide Managers.Adjust, Managers.Create, Managers.NewSet, Conditions.Find, NothingToRelease;
    AdjustIsIdle(e, st, m);
  }

  /** What the question reads of a status; an up-to-date snapshot answers it. */
  ghost predicate SameForRelease(a: Status, b: Status, m: Member) {
    || Verification.UpToDate(b.Of(m).sts)
    || (b.Of(m).sts == a.Of(m).sts && (m.Executor? ==> b.executor.members == a.executor.members))
  }

  lemma {:induction false} ReleaseReads(e: Event, a: Status, b: Status, m: Member)
    requires Released(e, a, m) && SameForRelease(a, b, m)
    ensures Released(e, b, m)
  {
    hide Upgrading.Updated, Verification.UpToDate;
    var answers := e.answers.Manager(m);
    if !Verification.UpToDate(b.Of(m).sts) && a.Of(m).sts.Some? && answers.sts.StsFound?
       && AllFit(e.spec, a, m, answers.sts.existing, answers.pods) {
      var target := a.Of(m).sts.value.updateRevision;
      forall i: nat | i < answers.sts.existing.replicas
        ensures Upgrading.SeenFit(e.spec, b, m, target, answers.pods, i)
      {
        assert Upgrading.SeenFit(e.spec, a, m, target, answers.pods, i);
      }
    }
  }

  lemma {:induction false} NothingReads(e: Event, a: Status, b: Status, m: Member)
    requires NothingToRelease(e, a, m) && b.Of(m) == a.Of(m)
    ensures NothingToRelease(e, b, m)
  {
    hide Released;
    if b.Of(m).phase == Upgrading { ReleaseReads(e, a, b, m); }
  }

  lemma {:induction false} CheckPasses(e: Event, st: Status, m: Member, sts: StsStatus)
    requires InOrder(e, st, m, sts) && !Verification.Skipped(e.spec, m)
    ensures var v := Verification.Verify(e.spec, st, m, e.answers.Check(m), e.now);
      && v.outcome == Done && v.status.Of(m).sts == Some(sts)
  {
    hide Verification.Verify, Verification.Answered, Verification.Checked, SyncEntries.Stored;
    Verification.VerifyPassesExactly(e.spec, st, m, e.answers.Check(m), e.now);
    Verification.VerifySucceeds(e.spec, st, m, e.answers.Check(m), e.now);
  }

  /** Being settled reads the status only through the number of failure members. */
  lemma {:induction false} SettledReadsFailures(e: Event, a: Status, b: Status, m: Member, sts: StsStatus)
    requires SettledMember(e, a, m, sts) && b.Of(m).failureMembers == a.Of(m).failureMembers
    ensures SettledMember(e, b, m, sts)
  {
  }

  /** In a settled cluster the control loop succeeds: both members checked, progress kept. */
  lemma {:induction false} ControlSettles(e: Event, st: Status, at: Snapshots)
    requires OnTrack(st) && SettledEvent(e, st, at)
    requires NothingToRelease(e, st, Master) && NothingToRelease(e, st, Executor)
    ensures var p := Control(e.spec, st, e.answers, e.now);
      && p.outcome == Done && WellFormed(p.status) && p.status.clusterPhase == st.clusterPhase
      && Ready(p.status, Master, at.master) && Ready(p.status, Executor, at.executor)
      && SameProgress(st, p.status, Master) && SameProgress(st, p.status, Executor)
  {
    hide Managers.Sync, Verification.Verify, Verification.Apply, Conditions.Find, SyncEntries.Stored,
      SyncEntries.UniqueNames, Conditions.UniqueKinds, SetInPlace, InOrder, RolledOut, Tracked, NothingToRelease;
    var spec, a, now := e.spec, e.answers, e.now;
    NotSkipped(e, st, Master);
    NotSkipped(e, st, Executor);
    var r := Managers.Sync(spec, st, Master, a.masterManager, now);
    ManagerIsIdle(e, st, Master);
    Managers.SyncIsGuarded(spec, st, Master, a.masterManager, now);
    var x := Managers.Sync(spec, r.status, Executor, a.executorManager, now);
    SettledReadsFailures(e, st, r.status, Executor, at.executor);
    NothingReads(e, st, r.status, Executor);
    ManagerIsIdle(e, r.status, Executor);
    Managers.SyncIsGuarded(spec, r.status, Executor, a.executorManager, now);
    var v := Verification.Verify(spec, x.status, Master, a.masterCheck, now);
    SettledReadsFailures(e, st, x.status, Master, at.master);
    CheckPasses(e, x.status, Master, at.master);
    Verification.VerifyKeeps(spec, x.status, Master, a.masterCheck, now);
    var w := Verification.Verify(spec, v.status, Executor, a.executorCheck, now);
    SettledReadsFailures(e, st, v.status, Executor, at.executor);
    CheckPasses(e, v.status, Executor, at.executor);
    Verification.VerifyKeeps(spec, v.status, Executor, a.executorCheck, now);
    Verification.ApplyMakesTrue(w.status, now);
  }

  lemma {:induction false} NotSkipped(e: Event, st: Status, m: Member)
    requires SetInPlace(e, st, m) && !e.spec.heterogeneous
    ensures !Verification.Skipped(e.spec, m)
  {
  }

  ghost predicate Ready(st: Status, m: Member, sts: StsStatus) {
    st.IsTrue(Conditions.SyncChecked(m)) && st.Of(m).sts == Some(sts)
  }

  /** Declaring a pending upgrade ongoing leaves what is pending. */
  lemma {:induction false} SameProgressPending(a: Status, b: Status, m: Member)
    requires WellFormed(a) && Tracked(a, m) && SameProgress(a, b, m)
    ensures PendingOf(b, m) == PendingOf(a, m)
  {
    hide SyncEntries.SetStatus, SyncEntries.Stored;
    if b.Of(m).syncTypes != a.Of(m).syncTypes {
      SyncEntries.SetStatusPending(a.Of(m).syncTypes, UpgradeType, Ongoing);
      PhaseProperties.PendingIffIsPending(a, m, UpgradeType);
    }
  }

  /** One step of progress: one pending entry less, Running exactly with the last one; with
      nothing pending the member's phase stays. */
  ghost predicate Advanced(a: Status, b: Status, m: Member) {
    && b.Of(m).failureMembers == a.Of(m).failureMembers
    && |PendingOf(b, m)| == (if PendingOf(a, m) == {} then 0 else |PendingOf(a, m)| - 1)
    && (b.Of(m).phase == Running <==>
         if PendingOf(a, m) == {} then a.Of(m).phase == Running else PendingOf(b, m) == {})
  }

  lemma {:induction false} ReadyIsSettled(e: Event, st: Status, t: Status, m: Member, sts: StsStatus)
    requires SettledMember(e, st, m, sts) && Ready(t, m, sts) && t.Of(m).failureMembers == st.Of(m).failureMembers
    ensures PhaseProperties.SettledSnapshot(e.spec, t, m)
    ensures PhaseProperties.SettledAnswers(t, m, e.answers.Phase(m))
  {
    hide Managers.NewSet, Members.OwnMembers, Conditions.Find, PhaseSync.IsUpgrading;
  }

  /** Deriving one member's phase from a settled, checked status. */
  lemma {:induction false} PhaseAdvances(e: Event, st: Status, t: Status, m: Member, sts: StsStatus)
    requires WellFormed(st) && Tracked(st, m) && SettledMember(e, st, m, sts) && !e.spec.heterogeneous
    requires WellFormed(t) && Ready(t, m, sts) && SameProgress(st, t, m)
    ensures var after := PhaseSync.SyncPhase(e.spec, t, m, e.answers.Phase(m));
      && after.Some? && Advanced(st, after.value, m) && Tracked(after.value, m)
      && after.value.Of(m).sts == Some(sts)
  {
    hide PhaseSync.SyncPhase, PhaseProperties.NextDone, PhaseProperties.CompletedOne, SettledMember, WellFormed,
      PhaseProperties.SettledSnapshot, PhaseProperties.SettledAnswers, SyncEntries.Pending, SyncEntries.SetStatus,
      SyncEntries.Stored, Conditions.Find;
    SameProgressPending(st, t, m);
    ReadyIsSettled(e, st, t, m, sts);
    PhaseProperties.SettledCall(e.spec, t, m, e.answers.Phase(m));
    PhaseProperties.PendingIffIsPending(st, m, UpgradeType);
    UpgradingIsPending(t, m, PhaseProperties.NextDone(t, m));
  }

  lemma {:induction false} UpgradingIsPending(t: Status, m: Member, name: SyncName)
    requires WellFormed(t)
    ensures var s := PhaseProperties.CompletedOne(t, m, name);
      && (s.Of(m).phase == Upgrading ==> s.Of(m).IsPending(UpgradeType))
      && s.Of(m).sts == t.Of(m).sts && s.Of(m).failureMembers == t.Of(m).failureMembers
  {
    hide PhaseSync.PhaseFor, SyncEntries.SetStatus, SyncEntries.Stored;
  }

  lemma {:induction false} SameMemberSameProgress(st: Status, t: Status, s: Status, m: Member, sts: StsStatus)
    requires SameProgress(st, t, m) && Ready(t, m, sts)
    requires s.Of(m) == t.Of(m) && s.conditions == t.conditions
    ensures SameProgress(st, s, m) && Ready(s, m, sts)
  {
  }

  lemma {:induction false} SameMemberAdvanced(st: Status, t: Status, s: Status, m: Member)
    requires Advanced(st, t, m) && Tracked(t, m) && s.Of(m) == t.Of(m)
    ensures Advanced(st, s, m) && Tracked(s, m)
  {
  }

  /** One reconcile of a settled cluster. */
  lemma {:induction false} SettledReconcile(e: Event, st: Status, at: Snapshots)
    requires OnTrack(st) && SettledEvent(e, st, at)
    requires NothingToRelease(e, st, Master) && NothingToRelease(e, st, Executor)
    ensures var after := Step(st, e);
      && after.master.sts == Some(at.master) && after.executor.sts == Some(at.executor)
      && OnTrack(after) && Advanced(st, after, Master) && Advanced(st, after, Executor)
      && (after.clusterPhase == ClusterRunning <==> after.master.phase == Running && after.executor.phase == Running)
  {
    hide Control, PhaseSync.SyncPhase, Tracked, Ready, SameProgress, Advanced, SettledMember, NothingToRelease,
      SyncEntries.UniqueNames, Conditions.UniqueKinds;
    ControlSettles(e, st, at);
    var t := Control(e.spec, st, e.answers, e.now).status;
    PhaseAdvances(e, st, t, Master, at.master);
    var s1 := PhaseSync.SyncPhase(e.spec, t, Master, e.answers.masterPhase).value;
    RunningSoundness.PhaseIsLocal(e.spec, t, Master, e.answers.masterPhase, s1);
    SameMemberSameProgress(st, t, s1, Executor, at.executor);
    PhaseAdvances(e, st, s1, Executor, at.executor);
    var s2 := PhaseSync.SyncPhase(e.spec, s1, Executor, e.answers.executorPhase).value;
    RunningSoundness.PhaseIsLocal(e.spec, s1, Executor, e.answers.executorPhase, s2);
    var after := Step(st, e);
    SameMemberAdvanced(st, s1, after, Master);
    SameMemberAdvanced(st, s2, after, Executor);
  }

  /** What `k` settled reconciles make of a member that started with `st`. */
  ghost predicate Progressed(st: Status, now: Status, m: Member, k: nat) {
    var n := |PendingOf(st, m)|;
    && now.Of(m).failureMembers == st.Of(m).failureMembers
    && |PendingOf(now, m)| == (if k < n then n - k else 0)
    && (k >= 1 || now == st)
    && (k >= 1 ==> (now.Of(m).phase == Running <==> n <= k && (n >= 1 || st.Of(m).phase == Running)))
  }

  lemma {:induction false} OneMore(st: Status, a: Status, b: Status, m: Member, k: nat)
    requires Progressed(st, a, m, k) && Advanced(a, b, m)
    ensures Progressed(st, b, m, k + 1)
  {
    hide SyncEntries.Pending;
  }

  /** A rollout on record is over for the first of the events. */
  ghost predicate StartsSettled(st: Status, events: seq<Event>) {
    events != [] ==> NothingToRelease(events[0], st, Master) && NothingToRelease(events[0], st, Executor)
  }

  /** In a settled cluster each reconcile completes one pending entry of each member, so after k
      reconciles a member with n pending entries has n - k left and shows Running exactly from
      the n-th on; the cluster shows Running exactly when both members do. A member that starts
      with nothing pending keeps whatever phase it has, Running or not. */
  lemma {:induction false} SettledRun(st: Status, events: seq<Event>, at: Snapshots)
    requires OnTrack(st) && StartsSettled(st, events)
    requires forall i | 0 <= i < |events| :: SettledEvent(events[i], st, at)
    ensures var now := Run(st, events);
      && OnTrack(now) && Progressed(st, now, Master, |events|) && Progressed(st, now, Executor, |events|)
      && (events != [] ==>
           && now.master.sts == Some(at.master) && now.executor.sts == Some(at.executor)
           && (now.clusterPhase == ClusterRunning <==> now.master.phase == Running && now.executor.phase == Running))
  {
    hide Step, OnTrack, Advanced, SettledMember, NothingToRelease;
    if events != [] {
      var k := |events| - 1;
      assert k > 0 ==> events[..k][0] == events[0];
      SettledRun(st, events[..k], at);
      var before := Run(st, events[..k]);
      assert SettledEvent(events[k], st, at);
      SettledReadsFailures(events[k], st, before, Master, at.master);
      SettledReadsFailures(events[k], st, before, Executor, at.executor);
      if k > 0 {
        SettledHasNothingToRelease(events[k], before, Master, at.master);
        SettledHasNothingToRelease(events[k], before, Executor, at.executor);
      }
      SettledReconcile(events[k], before, at);
      OneMore(st, before, Step(before, events[k]), Master, k);
      OneMore(st, before, Step(before, events[k]), Executor, k);
    } else {
      NothingDone(st, Master);
      NothingDone(st, Executor);
    }
  }

  lemma {:induction false} SettledHasNothingToRelease(e: Event, st: Status, m: Member, sts: StsStatus)
    requires SettledMember(e, st, m, sts) && st.Of(m).sts == Some(sts)
    ensures NothingToRelease(e, st, m)
  {
  }

  lemma {:induction false} NothingDone(st: Status, m: Member)
    ensures Progressed(st, st, m, 0)
  {
  }

  /** A settled cluster reaches Running, after as many reconciles as the longer list has pending
      entries, exactly if no member starts with nothing pending and another phase on record. */
  lemma {:induction false} ReachesRunning(st: Status, events: seq<Event>, at: Snapshots)
    requires OnTrack(st) && events != [] && StartsSettled(st, events)
    requires forall i | 0 <= i < |events| :: SettledEvent(events[i], st, at)
    requires |PendingOf(st, Master)| <= |events| && |PendingOf(st, Executor)| <= |events|
    ensures Run(st, events).clusterPhase == ClusterRunning <==>
      && (PendingOf(st, Master) == {} ==> st.master.phase == Running)
      && (PendingOf(st, Executor) == {} ==> st.executor.phase == Running)
  {
    hide Run, OnTrack, SettledMember, SyncEntries.Pending, StartsSettled;
    SettledRun(st, events, at);
  }

  // ----- an instance -----

  /** A cluster of two empty sets whose creation has just been recorded, and the event that
      finds both sets in place. */
  const EMPTY_SPEC: Spec :=
    Spec("c", "n", false, Some(MemberSpec(0, true, false)), Some(MemberSpec(0, true, false)), false)

  const CREATING: Status :=
    Status(CREATING_MEMBER, CREATING_MEMBER, [], "", ClusterReconciling)

  const CREATING_MEMBER: MemberStatus :=
    MemberStatus(Creating, [SyncEntries.Entry(CreateType, Ongoing)], Some(NEW_STS_STATUS), map[], map[], 0)

  function EmptyManager(): Managers.Answers {
    Managers.Answers(
      true, Managers.StsFound(Upgrading.StsObject(0, Upgrading.Strategy(false, Some(0)), true, true)), true, true, true,
      Scaling.Answers((k: nat) => true, true), (i: nat) => Upgrading.Unreadable, true)
  }

  function EmptyEvent(): Event {
    var check := Verification.Answers(Some(NEW_STS_STATUS), Some(""), Verification.Reported([]));
    var phase := PhaseSync.Answers(Some(PhaseSync.StsView("", "", 0, 0, 0, 0)), true, Some([]));
    Event(EMPTY_SPEC, Answers(true, EmptyManager(), EmptyManager(), check, check, phase, phase, true), 0)
  }

  /** The premises of the theorems above can be met, with work left to do. */
  lemma {:induction false} EmptyClusterIsSettled()
    ensures OnTrack(CREATING) && SettledEvent(EmptyEvent(), CREATING, Snapshots(NEW_STS_STATUS, NEW_STS_STATUS))
    ensures PendingOf(CREATING, Master) == PendingOf(CREATING, Executor) == {CreateType}
  {
    hide Members.Collect;
    assert Members.OwnMembers(Verification.Id(EMPTY_SPEC, Master), 0, []) == map[];
    assert Members.OwnMembers(Verification.Id(EMPTY_SPEC, Executor), 0, []) == map[];
    assert CREATING_MEMBER.syncTypes[0] == SyncEntries.Entry(CreateType, Ongoing);
  }
}
