/** The last reconcile of a rollout, and an upgrade from the new template to Running. */
module UpgradeCompletes {
  import opened Api
  import opened Clusters
  import opened Reconciling
  import opened Gate
  import opened FailedUpgrades
  import opened RolloutWrites
  import opened UpgradeProgress
  import Conditions
  import Convergence
  import Managers
  import PhaseProperties
  import PhaseSync
  import RunningSoundness
  import SyncEntries
  import Verification

  /** Every pod is updated and fit, and all that is asked sees the rollout finished. */
  ghost predicate FinalFound(e: Event, st: Status, m: Member) {
    var c := e.answers.Check(m);
    && Watched(e, m) && Convergence.SetInPlace(e, st, m) && Convergence.Released(e, st, m)
    && c.sts.Some? && Convergence.InOrder(e, st, m, c.sts.value) && Convergence.RolledOut(e, m, c.sts.value)
    && OtherPasses(e, st, Verification.Other(m)) && OtherReleased(e, st, m)
  }

  ghost predicate FinalEvent(e: Event, st: Status, m: Member) {
    FinalFound(e, st, m) && Stores(e.spec, st, e.answers, e.now)
  }

  /** The member's manager, on a rollout with nothing left to release, changes nothing of it. */
  lemma {:induction false} ManagerFinishes(e: Event, st: Status, m: Member)
    requires Ready(st, m) && Convergence.SetInPlace(e, st, m) && Convergence.Released(e, st, m) && !e.spec.forceUpgrade
    ensures var r := Managers.Sync(e.spec, st, m, e.answers.Manager(m), e.now);
      && r.outcome == Done && r.status.Of(m).phase == st.Of(m).phase && r.status.Of(m).syncTypes == st.Of(m).syncTypes
      && r.status.Of(m).failureMembers == st.Of(m).failureMembers
  {
    hide Managers.Sync, Convergence.SetInPlace, Convergence.Released, SyncEntries.SetStatus, SyncEntries.FindPos,
      SyncEntries.Pending, WellFormed;
    Convergence.ManagerIsIdle(e, st, m);
    SameStatusSameList(st.Of(m).syncTypes, UpgradeType, Ongoing);
  }

  lemma {:induction false} FoundReads(e: Event, a: Status, b: Status)
    requires Convergence.SetInPlace(e, a, Executor) && Convergence.Released(e, a, Executor) && b.executor == a.executor
    ensures Convergence.SetInPlace(e, b, Executor) && Convergence.Released(e, b, Executor)
  {
    hide Convergence.Released;
    Convergence.ReleaseReads(e, a, b, Executor);
    assert DesiredReplicas(e.spec, b, Executor) == DesiredReplicas(e.spec, a, Executor);
  }

  lemma {:induction false} ManagersFinish(e: Event, st: Status, m: Member)
    requires Ready(st, m) && FinalFound(e, st, m)
    ensures var r := Managers.Sync(e.spec, st, Master, e.answers.masterManager, e.now);
      var x := Managers.Sync(e.spec, r.status, Executor, e.answers.executorManager, e.now);
      && r.outcome == Done && x.outcome == Done && SameFailures(st, x.status)
      && x.status.Of(m).phase == st.Of(m).phase && x.status.Of(m).syncTypes == st.Of(m).syncTypes
      && WellFormed(x.status) && x.status.clusterPhase == st.clusterPhase
  {
    hide Managers.Sync, Conditions.Find, SyncEntries.Stored, OtherPasses, Ready, WellFormed, Convergence.SetInPlace,
      Convergence.Released, Convergence.InOrder, Convergence.RolledOut;
    var r := Managers.Sync(e.spec, st, Master, e.answers.masterManager, e.now);
    Managers.SyncIsGuarded(e.spec, st, Master, e.answers.masterManager, e.now);
    Managers.SyncIsGuarded(e.spec, r.status, Executor, e.answers.executorManager, e.now);
    ReadyIsWellFormed(st, m);
    if m.Master? {
      ManagerFinishes(e, st, Master);
      OtherReadsFailures(e, st, r.status, Executor);
      if e.spec.executor.Some? { Convergence.ReleaseReads(e, st, r.status, Executor); }
      OtherManagerPasses(e, r.status, Executor);
    } else {
      OtherManagerPasses(e, st, Master);
      ReadyReads(st, r.status);
      FoundReads(e, st, r.status);
      ManagerFinishes(e, r.status, Executor);
    }
  }

  lemma {:induction false} ReadyIsWellFormed(st: Status, m: Member)
    requires Ready(st, m)
    ensures WellFormed(st) && st.clusterPhase != ClusterUnset && st.Of(m).phase == Upgrading
    ensures PhaseProperties.PendingOf(st, m) == {UpgradeType}
  {
  }

  lemma {:induction false} InOrderIsDone(e: Event, st: Status, x: Status, m: Member, sts: StsStatus)
    requires Convergence.InOrder(e, st, m, sts) && Watched(e, m)
    requires x.Of(m).failureMembers == st.Of(m).failureMembers
    ensures CheckDone(e, x, m)
  {
    hide Verification.Verify, Convergence.InOrder;
    forall s: Status | s.Of(m).syncTypes == x.Of(m).syncTypes && s.Of(m).failureMembers == x.Of(m).failureMembers
      ensures Verification.Verify(e.spec, s, m, e.answers.Check(m), e.now).outcome == Done
    {
      InOrderReadsFailures(e, st, s, m, sts);
      Convergence.CheckPasses(e, s, m, sts);
    }
  }

  /** Deriving from there completes the upgrade. */
  lemma {:induction false} FinalDerives(e: Event, st: Status, t: Status, m: Member, sts: StsStatus)
    requires Convergence.SettledMember(e, st, m, sts) && WellFormed(t)
    requires t.IsTrue(Conditions.SyncChecked(m)) && t.Of(m).sts == Some(sts)
    requires t.Of(m).failureMembers == st.Of(m).failureMembers && PhaseProperties.PendingOf(t, m) == {UpgradeType}
    ensures var after := PhaseSync.SyncPhase(e.spec, t, m, e.answers.Phase(m));
      && after.Some? && after.value.Of(m).phase == Running && PhaseProperties.PendingOf(after.value, m) == {}
      && after.value.Of(m).Stored(UpgradeType) == Some(Completed)
  {
    hide PhaseSync.SyncPhase, Convergence.SettledMember, SyncEntries.FindPos, SyncEntries.Pending, PhaseSync.PhaseFor,
      WellFormed, SyncEntries.SetStatus, PhaseProperties.SettledAnswers, PhaseProperties.SettledSnapshot,
        Conditions.Find;
    Convergence.ReadyIsSettled(e, st, t, m, sts);
    NoneButUpgrade(t, m);
    PhaseProperties.SettledCall(e.spec, t, m, e.answers.Phase(m));
  }

  lemma {:induction false} FinalReconcile(st: Status, e: Event, m: Member)
    requires Ready(st, m) && FinalEvent(e, st, m) && Ran(st, e)
    ensures AppliedAt(st, e) && Step(st, e).Of(m).phase == Running
    ensures PhaseProperties.PendingOf(Step(st, e), m) == {}
    ensures Step(st, e).Of(m).Stored(UpgradeType) == Some(Completed)
  {
    hide Managers.Sync, Verification.ConditionSync, OtherPasses, Conditions.Find, CheckDone, Ready,
      PhaseSync.SyncPhase,
      SyncEntries.Stored, SyncEntries.Pending, SyncEntries.UniqueNames, Conditions.UniqueKinds, Convergence.SetInPlace,
      Convergence.InOrder, Convergence.RolledOut, Convergence.Released, Control;
    ReadyIsWellFormed(st, m);
    FinalApplies(st, e, m);
    var t, a := PassAt(st, e).status, e.answers;
    var s1 := PhaseSync.SyncPhase(e.spec, t, Master, a.masterPhase).value;
    var s2 := PhaseSync.SyncPhase(e.spec, s1, Executor, a.executorPhase).value;
    RunningSoundness.PhaseIsLocal(e.spec, t, Master, a.masterPhase, s1);
    RunningSoundness.PhaseIsLocal(e.spec, s1, Executor, a.executorPhase, s2);
    FinalDerives(e, st, if m.Master? then t else s1, m, a.Check(m).sts.value);
  }

  lemma {:induction false} FinalApplies(st: Status, e: Event, m: Member)
    requires Ready(st, m) && FinalFound(e, st, m) && Ran(st, e)
    ensures AppliedAt(st, e)
    ensures var t := PassAt(st, e).status;
      && WellFormed(t) && t.clusterPhase != ClusterUnset && t.IsTrue(Conditions.SyncChecked(m))
      && t.Of(m).sts == e.answers.Check(m).sts && t.Of(m).failureMembers == st.Of(m).failureMembers
      && PhaseProperties.PendingOf(t, m) == {UpgradeType}
  {
    hide Managers.Sync, Verification.ConditionSync, OtherPasses, Conditions.Find, CheckDone, Ready, WellFormed,
      SyncEntries.Stored, Convergence.SetInPlace, Convergence.InOrder, Convergence.RolledOut, Convergence.Released;
    ReadyIsWellFormed(st, m);
    ManagersFinish(e, st, m);
    var r := Managers.Sync(e.spec, st, Master, e.answers.masterManager, e.now);
    var x := Managers.Sync(e.spec, r.status, Executor, e.answers.executorManager, e.now);
    InOrderIsDone(e, st, x.status, m, e.answers.Check(m).sts.value);
    PassApplies(st, e, m, x.status);
  }

  lemma {:induction false} StoredIsRun(st: Status, e: Event)
    requires st.clusterPhase != ClusterUnset && Stores(e.spec, st, e.answers, e.now)
    ensures Ran(st, e)
  {
    hide Control;
  }

  /** An undisturbed upgrade from start to end: one reconcile brings the new template and writes it
      with the partition at the replica count R; R rounds, each reading what was written before,
      walk the partition to 0; and one more completes the upgrade and shows Running. Every one of
      them reaches Apply. */
  lemma {:induction false} UpgradeCompletes(st: Status, events: seq<Event>, m: Member, replicas: nat)
    requires |events| == replicas + 2 && Idle(st, m) && TemplateEvent(events[0], st, m)
    requires replicas == events[0].spec.Of(m).value.replicas
    requires forall k | 1 <= k <= replicas :: InRound(st, events, m, k, 0)
    requires FinalEvent(events[replicas + 1], Before(st, events, replicas + 1), m)
    ensures forall k | 1 <= k <= replicas + 1 :: PartitionAt(st, events, m, k, 0) == replicas + 1 - k
    ensures forall k | 0 <= k < |events| :: AppliedAt(Before(st, events, k), events[k])
    ensures var now := Run(st, events);
      && now.Of(m).phase == Running && PhaseProperties.PendingOf(now, m) == {}
      && now.Of(m).Stored(UpgradeType) == Some(Completed)
  {
    hide Before, Run, Ready, AppliedAt, InRound, FinalEvent, PartitionAt, SyncEntries.Pending,
      SyncEntries.Stored, Idle,
      TemplateEvent;
    TemplateStarts(st, events, m);
    forall k | 1 <= k <= replicas + 1
      ensures PartitionAt(st, events, m, k, 0) == replicas + 1 - k
    {
      UpgradeWalks(st, events, m, 0, 1, k);
    }
    UpgradeWalks(st, events, m, 0, 1, replicas + 1);
    UpgradeEnds(st, events, m, replicas + 1);
  }

  lemma {:induction false} UpgradeEnds(st: Status, events: seq<Event>, m: Member, last: nat)
    requires |events| == last + 1 && Ready(Before(st, events, last), m)
    requires FinalEvent(events[last], Before(st, events, last), m)
    ensures AppliedAt(Before(st, events, last), events[last])
    ensures var now := Run(st, events);
      && now.Of(m).phase == Running && PhaseProperties.PendingOf(now, m) == {}
      && now.Of(m).Stored(UpgradeType) == Some(Completed)
  {
    hide Before, Step, Ready, AppliedAt, FinalEvent, SyncEntries.Pending, SyncEntries.Stored;
    var before := Before(st, events, last);
    ReadyIsWellFormed(before, m);
    FinalIsStored(events[last], before, m);
    StoredIsRun(before, events[last]);
    FinalReconcile(before, events[last], m);
    BeforeNext(st, events, last);
    BeforeEnd(st, events);
  }

  lemma {:induction false} FinalIsStored(e: Event, st: Status, m: Member)
    requires FinalEvent(e, st, m)
    ensures Stores(e.spec, st, e.answers, e.now)
  {
  }

  lemma {:induction false} BeforeEnd(st: Status, events: seq<Event>)
    ensures Before(st, events, |events|) == Run(st, events)
  {
    assert events[..|events|] == events;
  }

  lemma {:induction false} TemplateStarts(st: Status, events: seq<Event>, m: Member)
    requires events != [] && Idle(st, m) && TemplateEvent(events[0], st, m)
    ensures Ready(Before(st, events, 1), m) && AppliedAt(Before(st, events, 0), events[0])
    ensures PartitionAt(st, events, m, 1, 0) == events[0].spec.Of(m).value.replicas
  {
    hide Before, Step, Ready, AppliedAt, EffectAt, CheckSeesBoth, OtherPasses, OtherReleased, Stores;
    FoundIsWatched(events[0], st, m);
    StoredIsRun(st, events[0]);
    StartsAt(st, events);
    BeforeNext(st, events, 0);
    TemplateReconcile(st, events[0], m);
  }
}
