/** Three runs of a cluster with one master, all from a new status: an upgrade that completes; one
    that a pod that cannot be read ends for good; one that a set that cannot be read puts back. */
module UpgradeRuns {
  import opened Api
  import opened Clusters
  import opened Reconciling
  import opened Gate
  import opened FailedUpgrades
  import opened RolloutWrites
  import opened UpgradeCompletes
  import opened UpgradeProgress
  import Conditions
  import LeaderNames
  import Managers
  import Members
  import NameParsing
  import Names
  import PhaseSync
  import RegisteredNames
  import Rollout
  import Scaling
  import SyncEntries
  import Upgrading
  import Verification

  const ONE_MASTER: Spec := Spec("c", "n", false, Some(MemberSpec(1, true, false)), None, false)

  /** The pod before and after, and the set's status before, between and after. */
  const OLD_POD: Upgrading.Pod := Upgrading.Pod(Some("a"), true)
  const NEW_POD: Upgrading.Pod := Upgrading.Pod(Some("b"), true)

  const WAITING: StsStatus := StsStatus(1, 1, 1, 0, "a", "b")
  const RELEASED: StsStatus := StsStatus(1, 1, 0, 1, "a", "b")
  const FINISHED: StsStatus := StsStatus(1, 1, 1, 1, "b", "b")

  function SetWith(templateEqual: bool, partition: int): Upgrading.StsObject {
    Upgrading.StsObject(1, Upgrading.Strategy(false, Some(partition)), templateEqual, true)
  }

  function ManagerWith(existing: Upgrading.StsObject, pod: Upgrading.Pod): Managers.Answers {
    Managers.Answers(true, Managers.StsFound(existing), true, true, true, Scaling.Answers((k: nat) => true, true),
                     (i: nat) => pod, true)
  }

  function CheckWith(sts: StsStatus): Verification.Answers {
    var name := Names.RegisteredName("c", Master, 0, "n");
    Verification.Answers(Some(sts), Some("leader"), Verification.Reported([MemberInfo("id", name, "address")]))
  }

  function EventWith(existing: Upgrading.StsObject, pod: Upgrading.Pod, sts: StsStatus, readable: bool): Event {
    var manager := ManagerWith(existing, pod);
    var seen := if readable then Some(PhaseSync.StsView(sts.currentRevision, sts.updateRevision, 0, 0, 1, 1)) else None;
    var phase := PhaseSync.Answers(seen, true, Some([Some(sts.updateRevision)]));
    Event(ONE_MASTER, Answers(true, manager, manager, CheckWith(sts), CheckWith(sts), phase, phase, true), 0)
  }

  /** A new template arrives and is written with the partition at 1. */
  function NewTemplate(): Event { EventWith(SetWith(false, 1), OLD_POD, WAITING, true) }

  /** The next reconcile releases the pod. */
  function Release(): Event { EventWith(SetWith(true, 1), OLD_POD, WAITING, true) }

  /** The one after finds it updated, and the rollout finished. */
  function Finish(): Event { EventWith(SetWith(true, 0), NEW_POD, FINISHED, true) }

  /** Instead of releasing, the reconcile cannot read the pod. */
  function PodUnreadable(): Event { EventWith(SetWith(true, 1), Upgrading.Unreadable, WAITING, true) }

  /** Or it releases the pod, and then cannot read the set. */
  function SetUnreadable(): Event { EventWith(SetWith(true, 1), OLD_POD, WAITING, false) }

  /** A reconcile that finds the partition at 0 and the pod updated. */
  function Later(): Event { EventWith(SetWith(true, 0), NEW_POD, RELEASED, true) }

  // ----- what every one of these events has -----

  lemma {:induction false} MasterAnswers(st: Status, sts: StsStatus)
    requires st.master.failureMembers == 0
    ensures Verification.Answered(ONE_MASTER, st, Master, CheckWith(sts))
  {
    hide Members.OwnMembers, NameParsing.NoHit;
    var id := Members.Identity("c", "n", Master);
    NameParsing.DotFreeHasNoHit("n");
    OwnReport(id);
    assert Verification.Id(ONE_MASTER, Master) == id;
    assert CheckWith(sts).report.infos == [MemberInfo("id", Members.NameOf(id, 0), "address")];
  }

  lemma {:induction false} OwnReport(id: Members.Identity)
    requires Members.PlainIdentity(id)
    ensures |Members.OwnMembers(id, 1, [MemberInfo("id", Members.NameOf(id, 0), "address")])| == 1
  {
    hide Members.OwnMembers, NameParsing.NoHit, Names.TypeName;
    assert Names.Digits(0) == "0";
    assert Names.ParseDigits("0") == 0 by { assert "0"[..0] == ""; }
    assert Members.NameOf(id, 0) == RegisteredNames.Typed(id, "0");
    RegisteredNames.OneReport(id, "id", Members.NameOf(id, 0), "address", "0");
  }

  lemma {:induction false} NoExecutor(e: Event, st: Status)
    requires e.spec == ONE_MASTER
    ensures OtherPasses(e, st, Executor) && OtherReleased(e, st, Master)
  {
  }

  lemma {:induction false} NoCrash(t: Status, a: PhaseSync.Answers)
    requires t.master.sts.Some?
    ensures PhaseSync.SyncPhase(ONE_MASTER, t, Master, a).Some?
  {
    hide Conditions.Find, SyncEntries.Stored, PhaseSync.PhaseFor;
    if a.podRevisions.Some? { NoNilSnapshot(a.podRevisions.value, t.master.sts); }
  }

  lemma {:induction false} NoNilSnapshot(pods: seq<Option<string>>, sts: Option<StsStatus>)
    requires sts.Some?
    ensures PhaseSync.JudgePods(pods, sts) != PhaseSync.NilSnapshot
  {
    if pods != [] { NoNilSnapshot(pods[1..], sts); }
  }

  /** A pass that did not crash is stored, once there is a snapshot. */
  lemma {:induction false} IsStored(st: Status, e: Event)
    requires e.spec == ONE_MASTER && Ran(st, e) && e.answers.stored
    requires PassAt(st, e).outcome != Panic && PassAt(st, e).status.master.sts.Some?
    ensures Stores(e.spec, st, e.answers, e.now)
  {
    hide Control, PhaseSync.FromCluster, Conditions.Find, PhaseSync.PhaseFor;
    NoCrash(PassAt(st, e).status, e.answers.masterPhase);
    ControlGate(e.spec, st, e.answers, e.now, Master);
  }

  lemma {:induction false} AppliedIsDone(st: Status, e: Event)
    requires AppliedAt(st, e)
    ensures Ran(st, e) && PassAt(st, e).outcome == Done
  {
    hide Managers.Sync, Verification.ConditionSync;
  }

  // ----- step by step -----

  /** Under way, with the pod waiting and the gate open. */
  ghost predicate UnderWay(st: Status) {
    Ready(st, Master) && st.master.sts == Some(WAITING) && st.master.failureMembers == 0
  }

  lemma {:induction false} FirstIsIdle(st: Status)
    requires st == PhaseSync.FirstReconcile(NEW_STATUS)
    ensures Idle(st, Master) && RolloutFound(NewTemplate(), st, Master) && Ran(st, NewTemplate())
  {
    hide Verification.Answered;
    assert Conditions.Find([], Conditions.SyncChecked(Master)) == None;
    assert SyncEntries.Pending([]) == {};
    MasterAnswers(st, WAITING);
    NoExecutor(NewTemplate(), st);
  }

  lemma {:induction false} UpgradeBegins(st: Status)
    requires st == PhaseSync.FirstReconcile(NEW_STATUS)
    ensures Idle(st, Master) && TemplateEvent(NewTemplate(), st, Master) && UnderWay(Step(st, NewTemplate()))
  {
    hide Control, Idle, RolloutFound, Ready, PhaseSync.SyncClusterPhase, Opened, SyncEntries.Stored;
    var e := NewTemplate();
    FirstIsIdle(st);
    TemplateApplies(st, e, Master);
    AppliedIsDone(st, e);
    IsStored(st, e);
    TemplateReconcile(st, e, Master);
    DerivationKeepsSnapshots(e.spec, PassAt(st, e).status, e.answers, Master);
    StepKeepsFailures(st, e, Master);
  }

  lemma {:induction false} PodIsReleased(st: Status, e: Event)
    requires UnderWay(st) && e in {Release(), SetUnreadable()}
    ensures RoundFound(e, st, Master, 1) && Ran(st, e)
  {
    hide Verification.Answered, LeaderNames.UpgraderSeesLeader, SyncEntries.Pending, SyncEntries.Stored,
      Conditions.Find;
    MasterAnswers(st, WAITING);
    NoExecutor(e, st);
  }

  lemma {:induction false} RoundIsStored(st: Status, e: Event)
    requires UnderWay(st) && e in {Release(), SetUnreadable()}
    ensures Stores(e.spec, st, e.answers, e.now) && AppliedAt(st, e)
    ensures PassAt(st, e).status.IsTrue(Conditions.SyncChecked(Master))
    ensures var effect := EffectAt(st, e, Master);
      effect.Adjusted? && effect.upgraded && effect.written.Some? && effect.written.value.strategy.partition == Some(0)
  {
    hide Control, Ready, RoundFound;
    PodIsReleased(st, e);
    RoundApplies(st, e, Master, 1);
    AppliedIsDone(st, e);
    IsStored(st, e);
  }

  lemma {:induction false} ReleaseIsRound(st: Status)
    requires UnderWay(st)
    ensures RoundEvent(Release(), st, Master, 1) && UnderWay(Step(st, Release()))
  {
    hide Control, Ready, RoundFound, PhaseSync.SyncClusterPhase;
    var e := Release();
    PodIsReleased(st, e);
    RoundIsStored(st, e);
    RoundApplies(st, e, Master, 1);
    RoundReconcile(st, e, Master, 1);
    ControlGate(e.spec, st, e.answers, e.now, Master);
    DerivationKeepsSnapshots(e.spec, PassAt(st, e).status, e.answers, Master);
    StepKeepsFailures(st, e, Master);
  }

  lemma {:induction false} FinishIsFound(st: Status)
    requires UnderWay(st)
    ensures FinalFound(Finish(), st, Master) && Ran(st, Finish())
  {
    hide Verification.Answered, SyncEntries.Pending, SyncEntries.Stored, Conditions.Find;
    MasterAnswers(st, FINISHED);
    NoExecutor(Finish(), st);
    assert Upgrading.SeenFit(ONE_MASTER, st, Master, "b", Finish().answers.masterManager.pods, 0);
  }

  lemma {:induction false} FinishIsFinal(st: Status)
    requires UnderWay(st)
    ensures FinalEvent(Finish(), st, Master)
  {
    hide Control, Ready, FinalFound;
    FinishIsFound(st);
    FinalApplies(st, Finish(), Master);
    AppliedIsDone(st, Finish());
    IsStored(st, Finish());
  }

  /** The manager meets a pod that it cannot read. */
  lemma {:induction false} PodError(st: Status)
    requires UnderWay(st)
    ensures var r := Managers.Sync(ONE_MASTER, st, Master, PodUnreadable().answers.masterManager, 0);
      UpgradeError(r.effect) && r.outcome == OtherErr && r.status.master.sts.Some?
  {
    hide Conditions.Set, SyncEntries.SetStatus, SyncEntries.Stored, Conditions.Find, LeaderNames.UpgraderSeesLeader,
      CheckWith, SyncEntries.UniqueNames, Conditions.UniqueKinds, SyncEntries.Pending;
    OpenIsNotFalse(st, Master);
  }

  lemma {:induction false} PodErrorIsStored(st: Status)
    requires UnderWay(st)
    ensures FailedUpgrade(Step(st, PodUnreadable()), Master)
  {
    hide Managers.Sync, SyncEntries.Stored, SyncEntries.Pending, Conditions.Find, PhaseSync.SyncClusterPhase,
      CheckWith,
      FailedUpgrade, Verification.ConditionSync, WellFormed, Stores;
    PodError(st);
    IsStored(st, PodUnreadable());
    UpgradeErrorEntersTrace(st, PodUnreadable(), Master);
  }

  lemma {:induction false} SetErrorLoses(st: Status)
    requires UnderWay(st)
    ensures LostTrack(Step(st, SetUnreadable()), Master)
  {
    hide Control, SyncEntries.Stored, SyncEntries.Pending, Conditions.Find, CheckWith, LostTrack, WellFormed, Stores,
      InRollout;
    var e := SetUnreadable();
    RoundIsStored(st, e);
    InRolloutHere(st, e);
    OnTheWay(st, Master);
    PassInRollout(st, e, Master);
    AppliedKeepsCourse(st, e);
    ReconcileInRollout(st, e, Master);
  }

  /** A released pod is no upgrade error, so the entry is still Ongoing after the pass. */
  lemma {:induction false} AppliedKeepsCourse(st: Status, e: Event)
    requires UnderWay(st) && Ran(st, e) && !UpgradeError(EffectAt(st, e, Master))
    requires UpgradeError(EffectAt(st, e, Master)) || KeepsCourse(st, PassAt(st, e).status, Master)
    ensures PassAt(st, e).status.master.Stored(UpgradeType) == Some(Ongoing)
  {
    hide Control, SyncEntries.FindPos, SyncEntries.Pending, Conditions.Find, WellFormed;
  }

  lemma {:induction false} InRolloutHere(st: Status, e: Event)
    requires e in {SetUnreadable(), Later()}
    ensures InRollout(e, st, Master)
  {
  }

  lemma {:induction false} PlainWrite(st: Status)
    requires LostTrack(st, Master)
    ensures EffectAt(st, Later(), Master)
         == Managers.Adjusted(false, false, Some(Managers.NewSet(ONE_MASTER, st, Master)))
  {
    hide Managers.Adjust, SyncEntries.Stored, SyncEntries.Pending, Conditions.Find, CheckWith,
      Verification.ConditionSync;
    var a := Later().answers.masterManager;
    PlainWriteKeepsStatus(ONE_MASTER, st, Master, SetWith(true, 0), a, 0);
    OpenIsNotFalse(st, Master);
  }

  // ----- the runs -----

  lemma {:induction false} First()
    ensures Run(NEW_STATUS, [NewTemplate()]) == PhaseSync.FirstReconcile(NEW_STATUS)
  {
    hide Control, PhaseSync.SyncClusterPhase;
    assert [NewTemplate()][..0] == [];
  }

  function Begun(): seq<Event> { [NewTemplate(), NewTemplate()] }

  lemma {:induction false} RunExtends(st: Status, events: seq<Event>, e: Event)
    ensures Run(st, events + [e]) == Step(Run(st, events), e)
  {
    hide Step;
    assert (events + [e])[..|events|] == events;
  }

  lemma {:induction false} RunBegins()
    ensures UnderWay(Run(NEW_STATUS, Begun()))
  {
    hide Step, Run, NewTemplate, UnderWay;
    First();
    RunExtends(NEW_STATUS, [NewTemplate()], NewTemplate());
    assert Begun() == [NewTemplate()] + [NewTemplate()];
    UpgradeBegins(Run(NEW_STATUS, [NewTemplate()]));
  }

  /** An upgrade that completes: the premises of the theorem about undisturbed upgrades are met,
      from the status that the first reconcile leaves, by a template, one release and the end. */
  lemma {:induction false} UpgradeIsCompleted()
    ensures var st := Run(NEW_STATUS, [NewTemplate()]);
      && Idle(st, Master) && TemplateEvent(NewTemplate(), st, Master) && InRound(st, Whole(), Master, 1, 0)
      && FinalEvent(Finish(), Before(st, Whole(), 2), Master)
      && Run(st, Whole()).master.phase == Running && Run(st, Whole()).master.Stored(UpgradeType) == Some(Completed)
  {
    hide Step, Run, NewTemplate, Release, Finish, UnderWay, TemplateEvent, RoundEvent, FinalEvent, Idle, Before,
      SyncEntries.Stored, SyncEntries.Pending, PartitionAt, InRound;
    var st := Run(NEW_STATUS, [NewTemplate()]);
    First();
    UpgradeBegins(st);
    WholeIsUndisturbed(st);
    UpgradeCompletes.UpgradeCompletes(st, Whole(), Master, 1);
  }

  function Whole(): seq<Event> { [NewTemplate(), Release(), Finish()] }

  lemma {:induction false} WholeIsUndisturbed(st: Status)
    requires st == PhaseSync.FirstReconcile(NEW_STATUS)
    ensures NewTemplate().spec == ONE_MASTER
    ensures InRound(st, Whole(), Master, 1, 0) && FinalEvent(Finish(), Before(st, Whole(), 2), Master)
  {
    hide Step, Release, Finish, UnderWay, TemplateEvent, RoundEvent, FinalEvent, Idle, Before, PartitionAt,
      Control, EffectAt, AppliedAt, Ready;
    UpgradeBegins(st);
    StartsAt(st, Whole());
    BeforeNext(st, Whole(), 0);
    BeforeNext(st, Whole(), 1);
    ReleaseIsRound(Before(st, Whole(), 1));
    FinishIsFinal(Before(st, Whole(), 2));
    TemplateStarts(st, Whole(), Master);
  }

  /** A new template, and then one pod that cannot be read: three reconciles from a new status
      that end in the trace of a failed upgrade. */
  lemma {:induction false} FailedUpgradeIsReached()
    ensures FailedUpgrade(Run(NEW_STATUS, Begun() + [PodUnreadable()]), Master)
  {
    hide Step, Run, UnderWay, FailedUpgrade;
    RunBegins();
    RunExtends(NEW_STATUS, Begun(), PodUnreadable());
    PodErrorIsStored(Run(NEW_STATUS, Begun()));
  }

  /** A new template, and then one failed read of the set after the pod was released: the next
      reconcile finds the pod updated, and puts the partition from 0 back to 1, above it. */
  lemma {:induction false} PartitionResetIsReached()
    ensures var before := Run(NEW_STATUS, Begun());
      var after := Run(NEW_STATUS, Begun() + [SetUnreadable()]);
      var released, reset := EffectAt(before, SetUnreadable(), Master), EffectAt(after, Later(), Master);
      && Rolling(before, Master) && LostTrack(after, Master)
      && released.Adjusted? && released.written.Some? && released.written.value.strategy.partition == Some(0)
      && Upgrading.Updated(Later().answers.masterManager.pods(0), WAITING.updateRevision)
      && reset.Adjusted? && reset.written.Some? && reset.written.value.strategy.partition == Some(1)
  {
    hide Step, Run, LostTrack, EffectAt, Ready, NewTemplate, SetUnreadable, Later;
    RunBegins();
    RunExtends(NEW_STATUS, Begun(), SetUnreadable());
    var before := Run(NEW_STATUS, Begun());
    SetErrorLoses(before);
    RoundIsStored(before, SetUnreadable());
    ReadyRolls(before);
    PlainWrite(Step(before, SetUnreadable()));
    ResetIsAbove(Step(before, SetUnreadable()));
  }

  lemma {:induction false} ReadyRolls(st: Status)
    requires Ready(st, Master)
    ensures Rolling(st, Master)
  {
  }

  lemma {:induction false} ResetIsAbove(st: Status)
    ensures Upgrading.Updated(Later().answers.masterManager.pods(0), WAITING.updateRevision)
    ensures Managers.NewSet(ONE_MASTER, st, Master).strategy.partition == Some(1)
  {
  }

  /** The rollout of this cluster as the protocol runs it, with a reset after its one round: the
      updated pod then lies below the partition. */
  lemma {:induction false} OrderIsBroken(st: Status)
    requires UnderWay(st)
    ensures var c := Rollout.Setting(ONE_MASTER, Master, "b", 1);
      var s := Rollout.State(1, [OLD_POD], Rollout.Idle);
      var now := Rollout.Run(c, s, Rollout.Rounds(c, [Rollout.Turn(st, NEW_POD)]) + [Rollout.Reset(true)]);
      && Rollout.Initial(c, s) && now.partition == 1 == |now.pods| && Upgrading.Updated(now.pods[0], "b")
      && !Rollout.PodsInOrder(c, now)
  {
    hide Rollout.Run, Rollout.Rounds, Ready;
    ReadyRolls(st);
    var c := Rollout.Setting(ONE_MASTER, Master, "b", 1);
    assert Rollout.ErrorFree(c, Rollout.Turn(st, NEW_POD), 1);
    Rollout.ResetAfterRounds(c, Rollout.State(1, [OLD_POD], Rollout.Idle), [Rollout.Turn(st, NEW_POD)]);
  }
}
