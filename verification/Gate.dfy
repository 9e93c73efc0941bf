/** The gate in front of scaling and upgrading: a False check condition, which only Apply lifts. */
module Gate {
  import opened Api
  import opened Clusters
  import opened Reconciling
  import RunningSoundness
  import Conditions
  import SyncEntries
  import Managers
  import Verification
  import PhaseSync
  import PhaseProperties

  predicate Ran(st: Status, e: Event) { e.answers.fetched && st.clusterPhase != ClusterUnset }

  function PassAt(st: Status, e: Event): Pass
    requires Ran(st, e)
  {
    Control(e.spec, st, e.answers, e.now)
  }

  function EffectAt(st: Status, e: Event, m: Member): Managers.Effect {
    if Ran(st, e) then PassAt(st, e).Effect(m) else Managers.NoEffect
  }

  predicate AppliedAt(st: Status, e: Event) { Ran(st, e) && PassAt(st, e).applied }

  /** A manager closes its gate when it acts, leaves it closed otherwise, and scales or upgrades
      only through an open gate; only Apply opens gates. */
  lemma {:induction false} ControlGate(spec: Spec, st: Status, a: Answers, now: int, m: Member)
    ensures var p := Control(spec, st, a, now);
      && (p.Effect(m).Adjusted? ==> !st.IsFalse(Conditions.SyncChecked(m)))
      && (!p.applied && (Managers.Acts(p.Effect(m)) || st.IsFalse(Conditions.SyncChecked(m))) ==>
            p.status.IsFalse(Conditions.SyncChecked(m)))
      && p.status.clusterPhase == st.clusterPhase
  {
    hide Managers.Sync, Managers.Guarded, Verification.Verify, Verification.Apply, Conditions.Find, WellFormed,
      SyncEntries.Stored;
    var r := Managers.Sync(spec, st, Master, a.masterManager, now);
    var e := Managers.Sync(spec, r.status, Executor, a.executorManager, now);
    Managers.SyncIsGuarded(spec, st, Master, a.masterManager, now);
    Managers.SyncIsGuarded(spec, r.status, Executor, a.executorManager, now);
    GuardedKeepsClosed(st, r.status, Master, m);
    GuardedKeepsClosed(r.status, e.status, Executor, m);
    var v := Verification.Verify(spec, e.status, Master, a.masterCheck, now);
    Verification.VerifyKeeps(spec, e.status, Master, a.masterCheck, now);
    Verification.VerifyKeeps(spec, v.status, Executor, a.executorCheck, now);
    Verification.ApplyMakesTrue(Verification.Verify(spec, v.status, Executor, a.executorCheck, now).status, now);
  }

  lemma {:induction false} GuardedKeepsClosed(a: Status, b: Status, manager: Member, m: Member)
    requires Managers.Guarded(a, b, manager)
    ensures a.IsFalse(Conditions.SyncChecked(m)) ==> b.IsFalse(Conditions.SyncChecked(m))
    ensures m != manager ==> (a.IsFalse(Conditions.SyncChecked(m)) <==> b.IsFalse(Conditions.SyncChecked(m)))
    ensures b.clusterPhase == a.clusterPhase
  {
    hide Conditions.Find, WellFormed, SyncEntries.Stored;
  }

  lemma {:induction false} DerivationKeepsConditions(spec: Spec, t: Status, a: Answers)
    ensures var w := PhaseSync.SyncClusterPhase(spec, t, a.masterPhase, a.executorPhase);
      w.Some? ==> w.value.conditions == t.conditions
  {
    hide PhaseSync.SyncPhase;
    var s1 := PhaseSync.SyncPhase(spec, t, Master, a.masterPhase);
    if s1.Some? {
      RunningSoundness.PhaseIsLocal(spec, t, Master, a.masterPhase, s1.value);
      var s2 := PhaseSync.SyncPhase(spec, s1.value, Executor, a.executorPhase);
      if s2.Some? { RunningSoundness.PhaseIsLocal(spec, s1.value, Executor, a.executorPhase, s2.value); }
    }
  }

  /** Acting closes the gate for the next reconcile, and it stays closed until Apply. */
  lemma {:induction false} StepGate(st: Status, e: Event, m: Member)
    requires !AppliedAt(st, e)
    requires (Stores(e.spec, st, e.answers, e.now) && Managers.Acts(EffectAt(st, e, m)))
          || st.IsFalse(Conditions.SyncChecked(m))
    ensures Step(st, e).IsFalse(Conditions.SyncChecked(m))
  {
    hide Control, PhaseSync.SyncClusterPhase, Conditions.Find;
    if Stores(e.spec, st, e.answers, e.now) && Ran(st, e) {
      ControlGate(e.spec, st, e.answers, e.now, m);
      DerivationKeepsConditions(e.spec, PassAt(st, e).status, e.answers);
    }
  }

  function Before(st: Status, events: seq<Event>, i: nat): Status
    requires i <= |events|
  {
    Run(st, events[..i])
  }

  lemma {:induction false} StartsAt(st: Status, events: seq<Event>)
    ensures Before(st, events, 0) == st
  {
  }

  lemma {:induction false} BeforeNext(st: Status, events: seq<Event>, i: nat)
    requires i < |events|
    ensures Before(st, events, i + 1) == Step(Before(st, events, i), events[i])
  {
    hide Step;
    assert events[..i + 1][..i] == events[..i];
  }

  /** Without Apply in between the gate stays closed. */
  lemma {:induction false} StaysClosed(st: Status, events: seq<Event>, m: Member, i: nat, j: nat)
    requires i <= j <= |events| && Before(st, events, i).IsFalse(Conditions.SyncChecked(m))
    requires forall k | i <= k < j :: !AppliedAt(Before(st, events, k), events[k])
    ensures Before(st, events, j).IsFalse(Conditions.SyncChecked(m))
  {
    hide Before, AppliedAt, Step;
    if i < j {
      StaysClosed(st, events, m, i, j - 1);
      StepGate(Before(st, events, j - 1), events[j - 1], m);
      BeforeNext(st, events, j - 1);
    }
  }

  /** Between a reconcile that creates, scales or upgrades a member's set, and whose status was
      stored, and a later one that scales or upgrades it, some condition Sync reached Apply. */
  lemma {:induction false} ApplyBetweenActions(st: Status, events: seq<Event>, m: Member, i: nat, j: nat)
    requires i < j < |events|
    requires Managers.Acts(EffectAt(Before(st, events, i), events[i], m))
    requires Stores(events[i].spec, Before(st, events, i), events[i].answers, events[i].now)
    requires EffectAt(Before(st, events, j), events[j], m).Adjusted?
    ensures exists k :: i <= k < j && AppliedAt(Before(st, events, k), events[k])
  {
    hide Before, Step, Control, Stores, Managers.Acts;
    if forall k | i <= k < j :: !AppliedAt(Before(st, events, k), events[k]) {
      StepGate(Before(st, events, i), events[i], m);
      BeforeNext(st, events, i);
      StaysClosed(st, events, m, i + 1, j);
      var e, before := events[j], Before(st, events, j);
      ControlGate(e.spec, before, e.answers, e.now, m);
      assert false;
    }
  }

  /** What Apply vouches for, when both members are local and the cluster refers to no other:
      both were just observed with the desired replicas ready and every member registered. */
  lemma {:induction false} ApplyMeansObserved(st: Status, e: Event)
    requires AppliedAt(st, e)
    requires !e.spec.heterogeneous && e.spec.master.Some? && e.spec.executor.Some?
    ensures var s := PassAt(st, e).status;
      Verification.Checked(e.spec, s, Master) && Verification.Checked(e.spec, s, Executor)
  {
    hide Managers.Sync, Verification.ConditionSync, Verification.Checked;
    var r := Managers.Sync(e.spec, st, Master, e.answers.masterManager, e.now);
    var x := Managers.Sync(e.spec, r.status, Executor, e.answers.executorManager, e.now);
    Verification.SyncSucceeds(e.spec, x.status, e.answers.masterCheck, e.answers.executorCheck, e.now);
  }

  // ----- what no reconcile changes -----

  lemma {:induction false} PhaseKeepsSnapshot(spec: Spec, st: Status, m: Member, a: PhaseSync.Answers, after: Status)
    requires PhaseSync.SyncPhase(spec, st, m, a) == Some(after)
    ensures after.Of(m).sts == st.Of(m).sts && after.Of(m).failureMembers == st.Of(m).failureMembers
    ensures after.Of(m).members == st.Of(m).members
  {
    hide PhaseSync.FromCluster, PhaseSync.PhaseFor, SyncEntries.SetStatus, Conditions.Find, SyncEntries.Stored;
    PhaseProperties.FromClusterChangesOneEntry(spec, st, m, a);
  }

  lemma {:induction false} DerivationKeepsSnapshots(spec: Spec, t: Status, a: Answers, m: Member)
    ensures var w := PhaseSync.SyncClusterPhase(spec, t, a.masterPhase, a.executorPhase);
      w.Some? && t.clusterPhase != ClusterUnset ==>
        && w.value.Of(m).sts == t.Of(m).sts && w.value.Of(m).failureMembers == t.Of(m).failureMembers
        && w.value.Of(m).members == t.Of(m).members
  {
    hide PhaseSync.SyncPhase;
    var s1 := PhaseSync.SyncPhase(spec, t, Master, a.masterPhase);
    if s1.Some? {
      RunningSoundness.PhaseIsLocal(spec, t, Master, a.masterPhase, s1.value);
      PhaseKeepsSnapshot(spec, t, Master, a.masterPhase, s1.value);
      var s2 := PhaseSync.SyncPhase(spec, s1.value, Executor, a.executorPhase);
      if s2.Some? {
        RunningSoundness.PhaseIsLocal(spec, s1.value, Executor, a.executorPhase, s2.value);
        PhaseKeepsSnapshot(spec, s1.value, Executor, a.executorPhase, s2.value);
      }
    }
  }

  lemma {:induction false} ControlKeepsFailures(spec: Spec, st: Status, a: Answers, now: int, m: Member)
    ensures Control(spec, st, a, now).status.Of(m).failureMembers == st.Of(m).failureMembers
  {
    hide Managers.Sync, Verification.Verify, Verification.Apply, WellFormed, Conditions.Find, SyncEntries.Stored;
    var r := Managers.Sync(spec, st, Master, a.masterManager, now);
    var e := Managers.Sync(spec, r.status, Executor, a.executorManager, now);
    Managers.SyncIsGuarded(spec, st, Master, a.masterManager, now);
    Managers.SyncIsGuarded(spec, r.status, Executor, a.executorManager, now);
    var v := Verification.Verify(spec, e.status, Master, a.masterCheck, now);
    Verification.VerifyKeeps(spec, e.status, Master, a.masterCheck, now);
    Verification.VerifyKeeps(spec, v.status, Executor, a.executorCheck, now);
    Verification.ApplyMakesTrue(Verification.Verify(spec, v.status, Executor, a.executorCheck, now).status, now);
  }

  /** Failure members are read, never written. */
  lemma {:induction false} StepKeepsFailures(st: Status, e: Event, m: Member)
    ensures Step(st, e).Of(m).failureMembers == st.Of(m).failureMembers
  {
    hide Control, PhaseSync.SyncClusterPhase;
    if Ran(st, e) {
      ControlKeepsFailures(e.spec, st, e.answers, e.now, m);
      ControlGate(e.spec, st, e.answers, e.now, m);
      DerivationKeepsSnapshots(e.spec, PassAt(st, e).status, e.answers, m);
    }
  }
}
