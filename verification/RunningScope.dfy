/** The one layout for which "Running" can be wrong: a heterogeneous cluster with a master of
    its own. Its master is never verified, so Apply declares it checked with work unfinished. */
module RunningScope {
  import opened Api
  import opened Clusters
  import opened Reconciling
  import opened RunningSoundness
  import Conditions
  import SyncEntries
  import Managers
  import Verification
  import PhaseSync
  import Scaling
  import Upgrading
  import Members

  function WitnessSpec(layout: Layout): Spec {
    Spec("c", "n", layout.heterogeneous,
         if layout.hasMaster then Some(MemberSpec(1, true, false)) else None,
         if layout.hasExecutor then Some(MemberSpec(0, true, false)) else None, false)
  }

  /** Answers of a manager that finds its set with 0 replicas and the template in place. */
  function ManagerAnswers(servicesOk: bool): Managers.Answers {
    Managers.Answers(
      servicesOk, Managers.StsFound(Upgrading.StsObject(0, Upgrading.Strategy(false, Some(0)), true, true)),
      true, true, true, Scaling.Answers((k: nat) => true, true), (i: nat) => Upgrading.Unreadable, true)
  }

  function WitnessAnswers(servicesOk: bool): Answers {
    var check := Verification.Answers(Some(NEW_STS_STATUS), Some(""), Verification.Reported([]));
    var phase := PhaseSync.Answers(None, true, None);
    Answers(true, ManagerAnswers(servicesOk), ManagerAnswers(servicesOk), check, check, phase, phase, true)
  }

  function WitnessEvent(layout: Layout, servicesOk: bool): Event {
    Event(WitnessSpec(layout), WitnessAnswers(servicesOk), 0)
  }

  /** Three reconciles: the initialising one, one whose services fail, one that scales out. */
  function Witness(layout: Layout): seq<Event> {
    [WitnessEvent(layout, false), WitnessEvent(layout, false), WitnessEvent(layout, true)]
  }

  /** After the second event both members show Running and nothing is recorded. */
  ghost predicate Idle(st: Status) {
    st.clusterPhase != ClusterUnset && st.conditions == [] && IdleMember(st.master) && IdleMember(st.executor)
  }

  ghost predicate IdleMember(s: MemberStatus) {
    s.phase == Running && s.syncTypes == [] && s.sts == None && s.failureMembers == 0
  }

  lemma {:induction false} FirstEvent(layout: Layout)
    ensures Step(NEW_STATUS, WitnessEvent(layout, false)) == PhaseSync.FirstReconcile(NEW_STATUS)
  {
    hide Control, PhaseSync.SyncClusterPhase;
  }

  lemma {:induction false} SecondEvent(layout: Layout, st: Status)
    requires layout.heterogeneous && layout.hasMaster && st == PhaseSync.FirstReconcile(NEW_STATUS)
    ensures Idle(Step(st, WitnessEvent(layout, false)))
  {
    hide Managers.Create, Managers.SyncSet, PhaseSync.FromCluster, Verification.ConditionSync;
    var e := WitnessEvent(layout, false);
    assert Control(e.spec, st, e.answers, 0) == Pass(st, OtherErr, false, Managers.NoEffect, Managers.NoEffect);
    assert PhaseSync.PhaseFor([]) == Running;
  }

  lemma {:induction false} ScaleOutOfOne(spec: Spec, st: Status)
    requires spec.master == Some(MemberSpec(1, true, false)) && Idle(st)
    ensures var r := Managers.Sync(spec, st, Master, ManagerAnswers(true), 0);
      && r.outcome == Done && r.status == Scaling.Begin(st, Master, ScaleOutType, 0)
      && r.status.master.IsPending(ScaleOutType) && r.status.master.phase == Running
      && !r.status.master.IsPending(CreateType) && !r.status.master.IsPending(UpgradeType)
      && r.status.master.sts == None && r.status.master.failureMembers == 0
      && r.status.executor == st.executor && r.status.clusterPhase == st.clusterPhase
  {
    hide Conditions.Set, Upgrading.GracefulUpgrade;
    assert Conditions.Find(st.conditions, Conditions.SyncChecked(Master)) == None;
    var a := ManagerAnswers(true);
    assert Scaling.StepsTaken(a.scaling.accepts, 1) == 1 by {
      assert a.scaling.accepts(0);
      assert Scaling.StepsTaken(a.scaling.accepts, 0) == 0;
    }
    assert Scaling.Scale(spec, st, Master, 0, 1, a.scaling, 0)
        == Scaling.Result(Scaling.Begin(st, Master, ScaleOutType, 0), Done, 1);
  }

  lemma {:induction false} ExecutorHasNothingToDo(spec: Spec, st: Status)
    requires spec.executor == None || spec.executor == Some(MemberSpec(0, true, false))
    requires st.executor.phase == Running && st.executor.failureMembers == 0 && !spec.forceUpgrade
    ensures var r := Managers.Sync(spec, st, Executor, ManagerAnswers(true), 0);
      r.outcome == Done && r.status == st
  {
    hide Conditions.Find, Upgrading.GracefulUpgrade, Scaling.ScaleOut, Scaling.ScaleIn;
  }

  lemma {:induction false} ExecutorCheckPasses(spec: Spec, st: Status)
    requires spec.executor == None || spec.executor == Some(MemberSpec(0, true, false))
    requires st.executor.failureMembers == 0
    ensures Verification.Verify(spec, st, Executor, WitnessAnswers(true).executorCheck, 0).outcome == Done
  {
    hide Conditions.Set, Conditions.Find, Conditions.UniqueKinds, SyncEntries.Stored, Members.Accepts, ManagerAnswers;
    assert Members.OwnMembers(Verification.Id(spec, Executor), 0, []) == map[];
  }

  lemma {:induction false} ChecksPass(spec: Spec, st: Status)
    requires spec.heterogeneous && (spec.executor == None || spec.executor == Some(MemberSpec(0, true, false)))
    requires st.executor.failureMembers == 0
    ensures var a := WitnessAnswers(true);
      Verification.ConditionSync(spec, st, a.masterCheck, a.executorCheck, 0).outcome == Done
  {
    hide Conditions.Set, Verification.VerifyVersion, Verification.Apply, WitnessAnswers;
    ExecutorCheckPasses(spec, Verification.Verify(spec, st, Master, WitnessAnswers(true).masterCheck, 0).status);
  }

  /** From there the third event ends with Running beside an Ongoing scale-out. */
  lemma {:induction false} ThirdEvent(layout: Layout, st: Status)
    requires layout.heterogeneous && layout.hasMaster && Idle(st)
    ensures var after := Step(st, WitnessEvent(layout, true));
      after.master.phase == Running && !AllDone(after, Master)
  {
    hide Managers.Sync, Verification.Verify, Verification.Apply, Scaling.Begin, PhaseSync.PhaseFor,
      SyncEntries.Stored;
    var e := WitnessEvent(layout, true);
    var spec, a := e.spec, e.answers;
    var r := Managers.Sync(spec, st, Master, a.masterManager, 0).status;
    ScaleOutOfOne(spec, st);
    ExecutorHasNothingToDo(spec, r);
    ChecksPass(spec, r);
    var t := Verification.ConditionSync(spec, r, a.masterCheck, a.executorCheck, 0).status;
    SyncOutcome(spec, r, a);
    assert PhaseSync.FromCluster(spec, t, Master, a.masterPhase) == PhaseSync.Unchanged;
    assert PhaseSync.SyncPhase(spec, t, Master, a.masterPhase) == Some(t);
    ExecutorPhaseLeavesMaster(spec, t, a);
    PendingIsNotDone(t, Master, ScaleOutType);
  }

  lemma {:induction false} PendingIsNotDone(st: Status, m: Member, n: SyncName)
    requires st.Of(m).IsPending(n)
    ensures !AllDone(st, m)
  {
  }

  lemma {:induction false} ExecutorPhaseLeavesMaster(spec: Spec, t: Status, a: Answers)
    requires a.executorPhase == PhaseSync.Answers(None, true, None) && t.executor.syncTypes == []
    ensures var r := PhaseSync.SyncPhase(spec, t, Executor, a.executorPhase);
      r.Some? && r.value.master == t.master
  {
    EmptyListHasNothingPending(t, Executor, CreateType);
    EmptyListHasNothingPending(t, Executor, ScaleOutType);
    EmptyListHasNothingPending(t, Executor, ScaleInType);
    EmptyListHasNothingPending(t, Executor, UpgradeType);
  }

  /** A successful condition Sync of the witness keeps the master as it is and checks it. */
  lemma {:induction false} SyncOutcome(spec: Spec, r: Status, a: Answers)
    requires spec.heterogeneous && spec.master.Some?
    requires Verification.ConditionSync(spec, r, a.masterCheck, a.executorCheck, 0).outcome == Done
    ensures var t := Verification.ConditionSync(spec, r, a.masterCheck, a.executorCheck, 0).status;
      && t.master == r.master && t.IsTrue(Conditions.SyncChecked(Master))
      && t.executor.syncTypes == r.executor.syncTypes && t.clusterPhase == r.clusterPhase
  {
    hide Verification.VerifyVersion, Conditions.Set, Verification.Apply, SyncEntries.Stored;
    var v := Verification.Verify(spec, r, Master, a.masterCheck, 0).status;
    var w := Verification.Verify(spec, v, Executor, a.executorCheck, 0).status;
    Verification.VerifyKeeps(spec, r, Master, a.masterCheck, 0);
    Verification.VerifyKeeps(spec, v, Executor, a.executorCheck, 0);
    Verification.ApplyMakesTrue(w, 0);
  }

  ghost predicate AlwaysSound(layout: Layout, m: Member) {
    forall events | Under(layout, events) :: Inv(layout, Run(NEW_STATUS, events), m)
  }

  /** Soundness of "Running" holds for a member exactly when it is not the local master of a
      heterogeneous cluster. */
  lemma {:induction false} RunningIsSoundExactly(layout: Layout, m: Member)
    ensures AlwaysSound(layout, m) <==> !(m.Master? && layout.heterogeneous && layout.hasMaster)
  {
    hide Inv, Step;
    if Eligible(layout, m) {
      forall events | Under(layout, events) ensures Inv(layout, Run(NEW_STATUS, events), m) {
        RunningIsSound(layout, events, m);
      }
    } else {
      WitnessIsUnsound(layout);
    }
  }

  lemma {:induction false} WitnessIsUnsound(layout: Layout)
    requires layout.heterogeneous && layout.hasMaster
    ensures Under(layout, Witness(layout)) && !Inv(layout, Run(NEW_STATUS, Witness(layout)), Master)
  {
    hide Step, Idle, AllDone, WitnessEvent;
    var e, f := WitnessEvent(layout, false), WitnessEvent(layout, true);
    var w := Witness(layout);
    assert w == [e, e, f];
    assert w[..2] == [e, e] && w[..2][..1] == [e] && [e][..0] == [];
    assert Run(NEW_STATUS, [e]) == Step(NEW_STATUS, e);
    assert Run(NEW_STATUS, [e, e]) == Step(Step(NEW_STATUS, e), e);
    FirstEvent(layout);
    SecondEvent(layout, Step(NEW_STATUS, e));
    ThirdEvent(layout, Step(Step(NEW_STATUS, e), e));
    WitnessFits(layout);
  }

  lemma {:induction false} WitnessFits(layout: Layout)
    ensures Under(layout, Witness(layout))
  {
  }
}
