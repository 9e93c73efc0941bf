/** "Running" means what it says: over whole runs, whatever the API server answers, a member
    shown as Running has every sync entry Completed. */
module RunningSoundness {
  import opened Api
  import opened Clusters
  import opened Reconciling
  import Conditions
  import SyncEntries
  import Managers
  import Verification
  import PhaseSync
  import PhaseProperties

  ghost predicate AllDone(st: Status, m: Member) { SyncEntries.AllCompleted(st.Of(m).syncTypes) }

  /** What holds of every persisted status. */
  ghost predicate Inv(layout: Layout, st: Status, m: Member) {
    && WellFormed(st)
    && (st.Of(m).phase == Running ==> AllDone(st, m))
    && (!layout.Has(m) ==> st.Of(m).syncTypes == [])
    && (st.clusterPhase == ClusterRunning ==> st.Of(m).phase == Running)
  }

  /** The snapshot shows the desired replicas, current and ready. */
  ghost predicate ReplicasSettled(spec: Spec, st: Status, m: Member) {
    && spec.Of(m).Some?
    && DesiredReplicas(spec, st, m) == st.Of(m).CurrentReplicas() == st.Of(m).ReadyReplicas()
  }

  /** Unfinished entries of the kind that a settled snapshot is about to complete. */
  ghost predicate AboutToComplete(spec: Spec, st: Status, m: Member) {
    && !st.Of(m).IsPending(UpgradeType) && ReplicasSettled(spec, st, m)
    && exists n :: n in {CreateType, ScaleOutType, ScaleInType} && st.Of(m).IsPending(n)
  }

  /** The coupling between managers, condition Sync and phase derivation. A status in memory may
      show Running beside unfinished entries, but then either the check condition is not True, or
      those entries are about to be completed. */
  ghost predicate Coupled(spec: Spec, st: Status, m: Member) {
    st.Of(m).phase == Running ==>
      AllDone(st, m) || !st.IsTrue(Conditions.SyncChecked(m)) || AboutToComplete(spec, st, m)
  }

  /** Before condition Sync: Running beside unfinished entries only with a False condition and
      without an unfinished upgrade. */
  ghost predicate Open(st: Status, m: Member) {
    st.Of(m).phase == Running ==>
      || AllDone(st, m)
      || (st.IsFalse(Conditions.SyncChecked(m)) && !st.Of(m).IsPending(UpgradeType)
          && exists n :: n in {CreateType, ScaleOutType, ScaleInType} && st.Of(m).IsPending(n))
  }

  lemma {:induction false} DoneHasNothingPending(st: Status, m: Member, n: SyncName)
    requires WellFormed(st)
    ensures AllDone(st, m) ==> !st.Of(m).IsPending(n)
    ensures !AllDone(st, m) ==> exists k :: st.Of(m).IsPending(k)
  {
    SyncEntries.PendingIsStored(st.Of(m).syncTypes, n);
    SyncEntries.CompletedMeansNothingPending(st.Of(m).syncTypes);
    if !AllDone(st, m) {
      var k :| k in SyncEntries.Pending(st.Of(m).syncTypes);
      SyncEntries.PendingIsStored(st.Of(m).syncTypes, k);
      assert st.Of(m).IsPending(k);
    }
  }

  /** A manager leaves its own member open. */
  lemma {:induction false} ManagerLeavesOpen(st: Status, s: Status, m: Member)
    requires WellFormed(st) && (st.Of(m).phase == Running ==> AllDone(st, m))
    requires Managers.Guarded(st, s, m)
    ensures WellFormed(s) && Open(s, m)
  {
    hide SyncEntries.Stored, Conditions.Find, WellFormed, SyncEntries.AllCompleted;
    if s.Of(m).phase == Running && !AllDone(s, m) {
      DoneHasNothingPending(s, m, UpgradeType);
      var k :| s.Of(m).IsPending(k);
      DoneHasNothingPending(st, m, k);
      DoneHasNothingPending(st, m, UpgradeType);
      assert k in {CreateType, ScaleOutType, ScaleInType};
    }
  }

  /** The other member's manager changes nothing that matters here. */
  lemma {:induction false} OtherManagerKeepsOpen(s: Status, t: Status, m: Member, other: Member)
    requires m != other && Managers.Guarded(s, t, other) && Open(s, m)
    ensures Open(t, m) && t.Of(m) == s.Of(m)
  {
    assert Conditions.Find(t.conditions, Conditions.SyncChecked(m))
        == Conditions.Find(s.conditions, Conditions.SyncChecked(m));
  }

  /** Verification without Apply keeps a member open, hence coupled. */
  lemma {:induction false} UncheckedIsCoupled(spec: Spec, s: Status, t: Status, m: Member)
    requires Verification.KeepsProtocol(s, t) && Open(s, m)
    ensures Coupled(spec, t, m) && Open(t, m)
  {
    hide SyncEntries.Stored, SyncEntries.AllCompleted, Conditions.Find;
    assert t.Of(m).phase == s.Of(m).phase && t.Of(m).syncTypes == s.Of(m).syncTypes;
    forall n ensures t.Of(m).IsPending(n) == s.Of(m).IsPending(n) {}
    assert Conditions.Find(t.conditions, Conditions.SyncChecked(m))
        == Conditions.Find(s.conditions, Conditions.SyncChecked(m));
  }

  /** Checks that passed leave only entries that the snapshot completes; Apply may follow. */
  lemma {:induction false} CheckedIsCoupled(spec: Spec, s: Status, t: Status, m: Member)
    requires Open(s, m) && Verification.Checked(spec, s, m)
    requires t.Of(m) == s.Of(m)
    ensures Coupled(spec, t, m)
  {
    hide SyncEntries.FindPos, SyncEntries.AllCompleted, Conditions.Find;
  }

  /** Where deriving the phase starts coupled, it ends sound. */
  lemma {:induction false} PhaseIsSound(spec: Spec, st: Status, m: Member, a: PhaseSync.Answers, after: Status)
    requires WellFormed(st) && Coupled(spec, st, m)
    requires PhaseSync.Shortcut(spec, m) ==> AllDone(st, m)
    requires PhaseSync.SyncPhase(spec, st, m, a) == Some(after)
    ensures after.Of(m).phase == Running ==> AllDone(after, m)
  {
    hide SyncEntries.Stored, PhaseSync.UpgradeStep, SyncEntries.SetStatus, PhaseSync.PhaseFor;
    if !PhaseSync.Shortcut(spec, m) && st.IsTrue(Conditions.SyncChecked(m)) && st.Of(m).phase == Running
       && !AllDone(st, m) {
      assert PhaseSync.FromCluster(spec, st, m, a) != PhaseSync.Unchanged;
    }
  }

  /** Deriving one member's phase leaves the other member and the conditions alone. */
  lemma {:induction false} PhaseIsLocal(spec: Spec, st: Status, m: Member, a: PhaseSync.Answers, after: Status)
    requires PhaseSync.SyncPhase(spec, st, m, a) == Some(after)
    ensures after.conditions == st.conditions && after.clusterPhase == st.clusterPhase
    ensures forall other | other != m :: after.Of(other) == st.Of(other)
    ensures WellFormed(st) ==> WellFormed(after)
    ensures st.Of(m).syncTypes == [] ==> after.Of(m).syncTypes == []
  {
    hide SyncEntries.Stored, PhaseSync.JudgePods, SyncEntries.SetStatus, PhaseSync.PhaseFor, SyncEntries.UniqueNames;
    PhaseProperties.FromClusterChangesOneEntry(spec, st, m, a);
    if st.Of(m).syncTypes == [] {
      forall n ensures !st.Of(m).IsPending(n) { EmptyListHasNothingPending(st, m, n); }
    }
  }

  lemma {:induction false} EmptyListHasNothingPending(st: Status, m: Member, n: SyncName)
    requires st.Of(m).syncTypes == []
    ensures !st.Of(m).IsPending(n)
  {
  }

  /** Heterogeneous clusters with a local master are left out: their master is never checked. */
  ghost predicate Eligible(layout: Layout, m: Member) {
    !(m.Master? && layout.heterogeneous && layout.hasMaster)
  }

  lemma {:induction false} AbsentMemberStays(layout: Layout, spec: Spec, st: Status, m: Member, a: Managers.Answers,
      now: int)
    requires layout.Fits(spec)
    ensures !layout.Has(m) ==> Managers.Sync(spec, st, m, a, now).status == st
  {
  }

  /** After the managers, with or without the executor's, every member is open. */
  lemma {:induction false} ManagersLeaveOpen(layout: Layout, spec: Spec, st: Status, a: Answers, now: int, m: Member)
    requires layout.Fits(spec) && Inv(layout, st, m)
    ensures var r := Managers.Sync(spec, st, Master, a.masterManager, now);
      var e := Managers.Sync(spec, r.status, Executor, a.executorManager, now);
      && WellFormed(r.status) && Open(r.status, m) && r.status.clusterPhase == st.clusterPhase
      && WellFormed(e.status) && Open(e.status, m) && e.status.clusterPhase == st.clusterPhase
      && (!layout.Has(m) ==> r.status.Of(m).syncTypes == [] && e.status.Of(m).syncTypes == [])
  {
    hide Managers.Sync, WellFormed, Open, SyncEntries.AllCompleted;
    var r := Managers.Sync(spec, st, Master, a.masterManager, now);
    var e := Managers.Sync(spec, r.status, Executor, a.executorManager, now);
    Managers.SyncIsGuarded(spec, st, Master, a.masterManager, now);
    Managers.SyncIsGuarded(spec, r.status, Executor, a.executorManager, now);
    AbsentMemberStays(layout, spec, st, Master, a.masterManager, now);
    AbsentMemberStays(layout, spec, r.status, Executor, a.executorManager, now);
    if m.Master? {
      ManagerLeavesOpen(st, r.status, Master);
      OtherManagerKeepsOpen(r.status, e.status, Master, Executor);
    } else {
      RunningIsOpen(st, m);
      OtherManagerKeepsOpen(st, r.status, Executor, Master);
      ManagerLeavesOpen(r.status, e.status, Executor);
    }
  }

  lemma {:induction false} RunningIsOpen(st: Status, m: Member)
    requires st.Of(m).phase == Running ==> AllDone(st, m)
    ensures Open(st, m)
  {
  }

  /** Condition Sync, whatever it finds, hands coupled members to the phase derivation. */
  lemma {:induction false} SyncLeavesCoupled(layout: Layout, spec: Spec, s: Status, a: Answers, now: int, m: Member)
    requires layout.Fits(spec) && Eligible(layout, m) && WellFormed(s) && Open(s, m)
    requires !layout.Has(m) ==> s.Of(m).syncTypes == []
    requires Verification.ConditionSync(spec, s, a.masterCheck, a.executorCheck, now).outcome != Panic
    ensures var t := Verification.ConditionSync(spec, s, a.masterCheck, a.executorCheck, now).status;
      && WellFormed(t) && Coupled(spec, t, m) && t.Of(m).syncTypes == s.Of(m).syncTypes
      && t.clusterPhase == s.clusterPhase
  {
    hide Verification.Verify, Verification.Checked, Open, Coupled, SyncEntries.UniqueNames, Conditions.UniqueKinds,
      Verification.Apply;
    var v := Verification.Verify(spec, s, Master, a.masterCheck, now);
    var w := Verification.Verify(spec, v.status, Executor, a.executorCheck, now);
    Verification.VerifyKeeps(spec, s, Master, a.masterCheck, now);
    Verification.VerifyKeeps(spec, v.status, Executor, a.executorCheck, now);
    UncheckedIsCoupled(spec, s, v.status, m);
    UncheckedIsCoupled(spec, v.status, w.status, m);
    if v.outcome == Done && w.outcome == Done {
      var t := Verification.Apply(w.status, now);
      Verification.ApplyMakesTrue(w.status, now);
      if !layout.Has(m) {
        NothingToDoIsCoupled(spec, t, m);
      } else if m.Master? {
        Verification.VerifySucceeds(spec, s, Master, a.masterCheck, now);
        Verification.CheckedReadsOneMember(spec, v.status, w.status, Master);
        CheckedIsCoupled(spec, w.status, t, Master);
      } else {
        Verification.VerifySucceeds(spec, v.status, Executor, a.executorCheck, now);
        CheckedIsCoupled(spec, w.status, t, Executor);
      }
    }
  }

  lemma {:induction false} NothingToDoIsCoupled(spec: Spec, st: Status, m: Member)
    requires st.Of(m).syncTypes == []
    ensures Coupled(spec, st, m)
  {
  }

  lemma {:induction false} OpenIsCoupled(spec: Spec, st: Status, m: Member)
    requires Open(st, m)
    ensures Coupled(spec, st, m)
  {
  }

  lemma {:induction false} ControlLeavesCoupled(layout: Layout, spec: Spec, st: Status, a: Answers, now: int, m: Member)
    requires layout.Fits(spec) && Eligible(layout, m) && Inv(layout, st, m)
    requires Control(spec, st, a, now).outcome != Panic
    ensures var t := Control(spec, st, a, now).status;
      && WellFormed(t) && Coupled(spec, t, m) && t.clusterPhase == st.clusterPhase
      && (!layout.Has(m) ==> t.Of(m).syncTypes == [])
  {
    hide Managers.Sync, Verification.ConditionSync, WellFormed, Open, Coupled, Inv;
    var r := Managers.Sync(spec, st, Master, a.masterManager, now);
    var e := Managers.Sync(spec, r.status, Executor, a.executorManager, now);
    ManagersLeaveOpen(layout, spec, st, a, now, m);
    OpenIsCoupled(spec, r.status, m);
    OpenIsCoupled(spec, e.status, m);
    if r.outcome == Done && e.outcome == Done {
      SyncLeavesCoupled(layout, spec, e.status, a, now, m);
    }
  }

  /** Deriving all phases turns coupled into sound. */
  lemma {:induction false} DerivedIsSound(layout: Layout, spec: Spec, t: Status, a: Answers, m: Member, after: Status)
    requires layout.Fits(spec) && WellFormed(t) && Coupled(spec, t, m) && t.clusterPhase != ClusterUnset
    requires !layout.Has(m) ==> t.Of(m).syncTypes == []
    requires PhaseSync.SyncClusterPhase(spec, t, a.masterPhase, a.executorPhase) == Some(after)
    ensures Inv(layout, after, m)
  {
    hide PhaseSync.SyncPhase, SyncEntries.UniqueNames, Conditions.UniqueKinds, SyncEntries.AllCompleted;
    var s1 := PhaseSync.SyncPhase(spec, t, Master, a.masterPhase).value;
    var s2 := PhaseSync.SyncPhase(spec, s1, Executor, a.executorPhase).value;
    PhaseIsLocal(spec, t, Master, a.masterPhase, s1);
    PhaseIsLocal(spec, s1, Executor, a.executorPhase, s2);
    if m.Master? {
      EmptyIsDone(t, m);
      PhaseIsSound(spec, t, Master, a.masterPhase, s1);
    } else {
      EmptyIsDone(s1, m);
      CoupledReadsOneMember(spec, t, s1, m);
      PhaseIsSound(spec, s1, Executor, a.executorPhase, s2);
    }
  }

  lemma {:induction false} EmptyIsDone(st: Status, m: Member)
    ensures st.Of(m).syncTypes == [] ==> AllDone(st, m)
  {
  }

  lemma {:induction false} CoupledReadsOneMember(spec: Spec, s: Status, t: Status, m: Member)
    requires Coupled(spec, s, m) && t.Of(m) == s.Of(m) && t.conditions == s.conditions
    ensures Coupled(spec, t, m)
  {
  }

  lemma {:induction false} StepKeepsInv(layout: Layout, st: Status, e: Event, m: Member)
    requires layout.Fits(e.spec) && Eligible(layout, m) && Inv(layout, st, m)
    ensures Inv(layout, Step(st, e), m)
  {
    hide Control, PhaseSync.SyncClusterPhase, Coupled;
    if Stores(e.spec, st, e.answers, e.now) && st.clusterPhase != ClusterUnset {
      ControlLeavesCoupled(layout, e.spec, st, e.answers, e.now, m);
      DerivedIsSound(layout, e.spec, Control(e.spec, st, e.answers, e.now).status, e.answers, m, Step(st, e));
    }
  }

  /** In every reachable persisted status: a member shown as Running has every sync entry
      Completed, and a Running cluster has its members Running. No answer of the API server, of
      tiflow-master or of the clock matters, nor which updates get lost. */
  lemma {:induction false} RunningIsSound(layout: Layout, events: seq<Event>, m: Member)
    requires Under(layout, events) && Eligible(layout, m)
    ensures Inv(layout, Run(NEW_STATUS, events), m)
  {
    hide Inv, Step;
    if events == [] {
      NewStatusIsSound(layout, m);
    } else {
      RunningIsSound(layout, events[..|events| - 1], m);
      StepKeepsInv(layout, Run(NEW_STATUS, events[..|events| - 1]), events[|events| - 1], m);
    }
  }

  lemma {:induction false} NewStatusIsSound(layout: Layout, m: Member)
    ensures Inv(layout, NEW_STATUS, m)
  {
  }
}
