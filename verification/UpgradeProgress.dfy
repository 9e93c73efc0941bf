/** An upgrade through full reconciles: gate, scan, write, checks, Apply and phase, round by round. */
module UpgradeProgress {
  import opened Api
  import opened Clusters
  import opened Reconciling
  import opened Gate
  import opened FailedUpgrades
  import opened RolloutWrites
  import Conditions
  import Convergence
  import SyncEntries
  import Managers
  import PhaseProperties
  import Rollout
  import Scaling
  import Upgrading
  import Verification
  import PhaseSync

  /** Under way, and free to go on. */
  ghost predicate Ready(st: Status, m: Member) { Rolling(st, m) && st.IsTrue(Conditions.SyncChecked(m)) }

  function SettingOf(e: Event, st: Status, m: Member): Rollout.Setting
    requires st.Of(m).sts.Some? && e.answers.Manager(m).sts.StsFound?
  {
    Rollout.Setting(e.spec, m, st.Of(m).sts.value.updateRevision, e.answers.Manager(m).sts.existing.replicas)
  }

  /** The manager finds the partition at `p`: the pods from there on are updated, ready and fit,
      the one below is readable, old and not held back; and its writes succeed. */
  ghost predicate ScanReleases(e: Event, st: Status, m: Member, p: nat) {
    var a := e.answers.Manager(m);
    && InRollout(e, st, m) && st.Of(m).sts.Some? && a.servicesOk && a.configOk && a.updateOk
    && a.sts.existing.strategy.partition == Some(p) && 0 < p <= a.sts.existing.replicas
    && a.pods(p - 1).Pod? && a.pods(p - 1).revision.Some?
    && !Upgrading.Updated(a.pods(p - 1), st.Of(m).sts.value.updateRevision)
    && !Upgrading.Guarded(e.spec, st, m, p - 1)
    && forall i: nat | p <= i < a.sts.existing.replicas ::
         Upgrading.SeenFit(e.spec, st, m, st.Of(m).sts.value.updateRevision, a.pods, i)
  }

  /** The check sees old and updated pods together as many as desired, all ready and registered. */
  ghost predicate CheckSeesBoth(e: Event, st: Status, m: Member) {
    var c := e.answers.Check(m);
    && e.spec.Of(m).Some? && c.sts.Some? && !Verification.UpToDate(c.sts)
    && Verification.Answered(e.spec, st, m, c)
    && DesiredReplicas(e.spec, st, m) == c.sts.value.currentReplicas + c.sts.value.updatedReplicas
        == c.sts.value.readyReplicas
  }

  /** One reconcile of an undisturbed rollout; the other member is in order. */
  ghost predicate RoundFound(e: Event, st: Status, m: Member, p: nat) {
    && ScanReleases(e, st, m, p) && CheckSeesBoth(e, st, m)
    && OtherPasses(e, st, Verification.Other(m)) && OtherReleased(e, st, m)
  }

  ghost predicate RoundEvent(e: Event, st: Status, m: Member, p: nat) {
    RoundFound(e, st, m, p) && e.answers.Phase(m).getSts.Some? && Stores(e.spec, st, e.answers, e.now)
  }

  /** The manager releases the next pod. */
  lemma {:induction false} ManagerReleases(e: Event, st: Status, m: Member, p: nat)
    requires Ready(st, m) && ScanReleases(e, st, m, p)
    ensures var r := Managers.Sync(e.spec, st, m, e.answers.Manager(m), e.now);
      && r.outcome == Done && r.effect.Adjusted? && !r.effect.scaled && r.effect.upgraded
      && r.effect.written.Some? && r.effect.written.value.strategy.partition == Some(p - 1)
      && r.status.Of(m) == st.Of(m)
  {
    hide Managers.Adjust, Managers.NewSet, Conditions.Find, SyncEntries.Stored, SyncEntries.Pending, WellFormed;
    var a := e.answers.Manager(m);
    OnTheWay(st, m);
    ManagerInRollout(e, st, m);
    AdjustReleases(e, st, m, p);
    OpenIsNotFalse(st, m);
  }

  lemma {:induction false} OpenIsNotFalse(st: Status, m: Member)
    requires st.IsTrue(Conditions.SyncChecked(m))
    ensures !st.IsFalse(Conditions.SyncChecked(m))
  {
  }

  lemma {:induction false} AdjustReleases(e: Event, st: Status, m: Member, p: nat)
    requires Ready(st, m) && ScanReleases(e, st, m, p)
    ensures var a := e.answers.Manager(m);
      var r := Managers.Adjust(e.spec, st, m, a.sts.existing, a, e.now);
      && r.outcome == Done && r.effect.Adjusted? && !r.effect.scaled && r.effect.upgraded
      && r.effect.written.Some? && r.effect.written.value.strategy.partition == Some(p - 1)
  {
    hide Upgrading.GracefulUpgrade, Upgrading.Scan, Scaling.ScaleOut, Scaling.ScaleIn, Upgrading.Guarded,
      Upgrading.SeenFit,
      Conditions.Find, SyncEntries.Stored, SyncEntries.Pending, WellFormed;
    var a := e.answers.Manager(m);
    var c := SettingOf(e, st, m);
    Upgrading.ScanMeaning(e.spec, st, m, c.target, a.pods, c.replicas, p - 1);
    Rollout.UpgradeScans(c, st, a.sts.existing, Managers.NewSet(e.spec, st, m), a.pods, e.now, p);
  }

  lemma {:induction false} ReadyReads(a: Status, b: Status)
    requires Ready(a, Executor) && Managers.Guarded(a, b, Master)
    ensures Ready(b, Executor)
  {
    hide SyncEntries.Pending, SyncEntries.Stored, SyncEntries.UniqueNames, Conditions.UniqueKinds;
    assert Conditions.Find(b.conditions, Conditions.SyncChecked(Executor))
        == Conditions.Find(a.conditions, Conditions.SyncChecked(Executor));
  }

  lemma {:induction false} ScanReads(e: Event, a: Status, b: Status, p: nat)
    requires ScanReleases(e, a, Executor, p) && b.executor == a.executor
    ensures ScanReleases(e, b, Executor, p)
  {
    hide Upgrading.Updated;
    InRolloutReadsFailures(e, a, b, Executor);
    forall i: nat | p <= i < e.answers.executorManager.sts.existing.replicas
      ensures Upgrading.SeenFit(e.spec, b, Executor, b.executor.sts.value.updateRevision,
          e.answers.executorManager.pods, i)
    {
      assert Upgrading.SeenFit(e.spec, a, Executor, a.executor.sts.value.updateRevision,
          e.answers.executorManager.pods, i);
    }
  }

  lemma {:induction false} CheckPassesMidway(e: Event, st: Status, s: Status, m: Member)
    requires CheckSeesBoth(e, st, m) && Watched(e, m)
    requires s.Of(m).failureMembers == st.Of(m).failureMembers && s.Of(m).Stored(UpgradeType) == Some(Ongoing)
    ensures Verification.Verify(e.spec, s, m, e.answers.Check(m), e.now).outcome == Done
  {
    hide Verification.Verify, Verification.Answered, SyncEntries.Stored, Managers.NewSet;
    var c := e.answers.Check(m);
    assert DesiredReplicas(e.spec, s, m) == DesiredReplicas(e.spec, st, m);
    Verification.SameForAnswers(e.spec, st, s, m, c);
    Verification.VerifyPassesExactly(e.spec, s, m, c, e.now);
  }

  /** The managers of a round: the member's releases a pod, the other's is idle. */
  lemma {:induction false} ManagersRelease(e: Event, st: Status, m: Member, p: nat)
    requires Ready(st, m) && RoundFound(e, st, m, p)
    ensures var r := Managers.Sync(e.spec, st, Master, e.answers.masterManager, e.now);
      var x := Managers.Sync(e.spec, r.status, Executor, e.answers.executorManager, e.now);
      var effect := if m.Master? then r.effect else x.effect;
      && r.outcome == Done && x.outcome == Done
      && effect.Adjusted? && !effect.scaled && effect.upgraded
      && effect.written.Some? && effect.written.value.strategy.partition == Some(p - 1)
      && x.status.Of(m) == st.Of(m)
      && SameFailures(st, x.status)
  {
    hide Managers.Sync, Conditions.Find, SyncEntries.Stored, OtherPasses, ScanReleases, CheckSeesBoth, Ready,
      WellFormed;
    var r := Managers.Sync(e.spec, st, Master, e.answers.masterManager, e.now);
    Managers.SyncIsGuarded(e.spec, st, Master, e.answers.masterManager, e.now);
    Managers.SyncIsGuarded(e.spec, r.status, Executor, e.answers.executorManager, e.now);
    ScanIsWatched(e, st, m, p);
    if m.Master? {
      ManagerReleases(e, st, Master, p);
      OtherReadsFailures(e, st, r.status, Executor);
      if e.spec.executor.Some? { Convergence.ReleaseReads(e, st, r.status, Executor); }
      OtherManagerPasses(e, r.status, Executor);
    } else {
      OtherManagerPasses(e, st, Master);
      ReadyReads(st, r.status);
      ScanReads(e, st, r.status, p);
      ManagerReleases(e, r.status, Executor, p);
    }
  }

  lemma {:induction false} ScanIsWatched(e: Event, st: Status, m: Member, p: nat)
    requires ScanReleases(e, st, m, p)
    ensures InRollout(e, st, m) && Watched(e, m) && !Verification.Skipped(e.spec, m)
  {
  }

  /** The member's check passes on any status with its entries and failure members. */
  ghost predicate CheckDone(e: Event, x: Status, m: Member) {
    forall s: Status | s.Of(m).syncTypes == x.Of(m).syncTypes && s.Of(m).failureMembers == x.Of(m).failureMembers ::
      Verification.Verify(e.spec, s, m, e.answers.Check(m), e.now).outcome == Done
  }

  ghost predicate SameFailures(a: Status, b: Status) {
    forall k: Member :: b.Of(k).failureMembers == a.Of(k).failureMembers
  }

  /** When both managers succeed and both checks pass, Apply opens the gate; the member keeps the
      entries and the phase that its manager left, and gets the snapshot of its check. */
  lemma {:induction false} PassApplies(st: Status, e: Event, m: Member, x: Status)
    requires Ran(st, e) && Watched(e, m) && e.answers.Check(m).sts.Some?
    requires var r := Managers.Sync(e.spec, st, Master, e.answers.masterManager, e.now);
      var y := Managers.Sync(e.spec, r.status, Executor, e.answers.executorManager, e.now);
      r.outcome == Done && y.outcome == Done && y.status == x
    requires CheckDone(e, x, m) && OtherPasses(e, st, Verification.Other(m)) && SameFailures(st, x)
    ensures AppliedAt(st, e)
    ensures var t := PassAt(st, e).status;
      && t.IsTrue(Conditions.SyncChecked(m)) && t.clusterPhase == x.clusterPhase
      && t.Of(m).phase == x.Of(m).phase && t.Of(m).syncTypes == x.Of(m).syncTypes
      && t.Of(m).failureMembers == x.Of(m).failureMembers && t.Of(m).sts == e.answers.Check(m).sts
      && (WellFormed(x) ==> WellFormed(t))
  {
    hide Managers.Sync, Verification.Verify, Verification.Apply, OtherPasses, Conditions.Find, CheckDone,
      SyncEntries.UniqueNames, Conditions.UniqueKinds, SyncEntries.Stored;
    var v := Verification.Verify(e.spec, x, Master, e.answers.masterCheck, e.now);
    Verification.VerifyKeeps(e.spec, x, Master, e.answers.masterCheck, e.now);
    EachCheckPasses(st, e, m, x, x, Master);
    EachCheckPasses(st, e, m, x, v.status, Executor);
    var w := Verification.Verify(e.spec, v.status, Executor, e.answers.executorCheck, e.now);
    Verification.VerifyKeeps(e.spec, v.status, Executor, e.answers.executorCheck, e.now);
    Verification.ApplyMakesTrue(w.status, e.now);
    FirstErrorEndsPass(e.spec, st, e.answers, e.now);
  }

  lemma {:induction false} EachCheckPasses(st: Status, e: Event, m: Member, x: Status, s: Status, k: Member)
    requires CheckDone(e, x, m) && OtherPasses(e, st, Verification.Other(m)) && SameFailures(st, x)
    requires s.Of(k).syncTypes == x.Of(k).syncTypes && s.Of(k).failureMembers == x.Of(k).failureMembers
    ensures Verification.Verify(e.spec, s, k, e.answers.Check(k), e.now).outcome == Done
  {
    hide Verification.Verify, OtherPasses;
    if k != m {
      OtherReadsFailures(e, st, s, k);
      OtherCheckPasses(e, s, k);
    }
  }

  lemma {:induction false} MidwayIsDone(e: Event, st: Status, x: Status, m: Member)
    requires CheckSeesBoth(e, st, m) && Watched(e, m) && x.Of(m).Stored(UpgradeType) == Some(Ongoing)
    requires x.Of(m).failureMembers == st.Of(m).failureMembers
    ensures CheckDone(e, x, m)
  {
    hide Verification.Verify, CheckSeesBoth, SyncEntries.FindPos;
    forall s: Status | s.Of(m).syncTypes == x.Of(m).syncTypes && s.Of(m).failureMembers == x.Of(m).failureMembers
      ensures Verification.Verify(e.spec, s, m, e.answers.Check(m), e.now).outcome == Done
    {
      CheckPassesMidway(e, st, s, m);
    }
  }

  /** The pass of a round: the manager writes the partition one lower, both checks pass, and Apply
      opens the gate again. */
  lemma {:induction false} RoundApplies(st: Status, e: Event, m: Member, p: nat)
    requires Ready(st, m) && RoundFound(e, st, m, p) && Ran(st, e)
    ensures var effect := EffectAt(st, e, m);
      && effect.Adjusted? && !effect.scaled && effect.upgraded
      && effect.written.Some? && effect.written.value.strategy.partition == Some(p - 1)
    ensures AppliedAt(st, e) && PassAt(st, e).status.IsTrue(Conditions.SyncChecked(m))
    ensures PassAt(st, e).status.Of(m).sts == e.answers.Check(m).sts
  {
    hide Managers.Sync, Verification.ConditionSync, OtherPasses, ScanReleases, CheckSeesBoth, Conditions.Find,
      CheckDone,
      SyncEntries.Stored, SyncEntries.Pending, WellFormed, InRollout;
    ScanIsWatched(e, st, m, p);
    OnTheWay(st, m);
    ManagersRelease(e, st, m, p);
    var r := Managers.Sync(e.spec, st, Master, e.answers.masterManager, e.now);
    var x := Managers.Sync(e.spec, r.status, Executor, e.answers.executorManager, e.now);
    SeenBothHasSnapshot(e, st, m);
    MidwayIsDone(e, st, x.status, m);
    PassApplies(st, e, m, x.status);
  }

  /** One round: after its pass the phase stays Upgrading, so the next one can go on. */
  lemma {:induction false} RoundReconcile(st: Status, e: Event, m: Member, p: nat)
    requires Ready(st, m) && RoundEvent(e, st, m, p) && Ran(st, e)
    ensures var effect := EffectAt(st, e, m);
      && effect.Adjusted? && !effect.scaled && effect.upgraded
      && effect.written.Some? && effect.written.value.strategy.partition == Some(p - 1)
    ensures AppliedAt(st, e) && Ready(Step(st, e), m)
  {
    hide Control, OtherPasses, ScanReleases, CheckSeesBoth, Conditions.Find, PhaseSync.SyncClusterPhase,
      SyncEntries.Stored, SyncEntries.Pending, WellFormed, InRollout;
    ScanIsWatched(e, st, m, p);
    OnTheWay(st, m);
    RoundApplies(st, e, m, p);
    PassInRollout(st, e, m);
    StepDerives(st, e, m);
    DerivationKeepsConditions(e.spec, PassAt(st, e).status, e.answers);
  }

  lemma {:induction false} SeenBothHasSnapshot(e: Event, st: Status, m: Member)
    requires CheckSeesBoth(e, st, m)
    ensures e.answers.Check(m).sts.Some? && !Verification.UpToDate(e.answers.Check(m).sts)
  {
  }

  // ----- the walk -----

  /** The partition that the set holds before the i-th event, if it was `first`: the last one that
      a manager handed in and the API server took. */
  ghost function PartitionAt(st: Status, events: seq<Event>, m: Member, i: nat, first: int): int
    requires i <= |events|
  {
    if i == 0 then first
    else
      var effect := EffectAt(Before(st, events, i - 1), events[i - 1], m);
      if effect.Adjusted? && effect.written.Some? && effect.written.value.strategy.partition.Some?
         && events[i - 1].answers.Manager(m).updateOk
      then effect.written.value.strategy.partition.value
      else PartitionAt(st, events, m, i - 1, first)
  }

  /** The i-th event reads the set as it was last written; while pods are left it is a round. */
  ghost predicate InRound(st: Status, events: seq<Event>, m: Member, i: nat, first: int)
    requires i < |events|
  {
    var p := PartitionAt(st, events, m, i, first);
    0 < p ==> RoundEvent(events[i], Before(st, events, i), m, p)
  }

  lemma {:induction false} WalkStep(st: Status, events: seq<Event>, m: Member, i: nat, first: int)
    requires i < |events| && Ready(Before(st, events, i), m) && InRound(st, events, m, i, first)
    requires 0 < PartitionAt(st, events, m, i, first)
    ensures Ready(Before(st, events, i + 1), m) && AppliedAt(Before(st, events, i), events[i])
    ensures PartitionAt(st, events, m, i + 1, first) == PartitionAt(st, events, m, i, first) - 1
  {
    hide Before, Step, Ready, AppliedAt, EffectAt, CheckSeesBoth, OtherPasses, OtherReleased;
    var p := PartitionAt(st, events, m, i, first);
    BeforeNext(st, events, i);
    RoundIsRun(Before(st, events, i), events[i], m, p);
    RoundReconcile(Before(st, events, i), events[i], m, p);
  }

  /** An undisturbed upgrade walks: reading each time what was written before, every reconcile from
      `from` on lowers the partition by one through the gate, and leaves the upgrade under way and
      the gate open for the next. */
  lemma {:induction false} UpgradeWalks(st: Status, events: seq<Event>, m: Member, first: int, from: nat, i: nat)
    requires from <= i <= |events| && Ready(Before(st, events, from), m)
    requires i - from <= PartitionAt(st, events, m, from, first)
    requires forall k | from <= k < i :: InRound(st, events, m, k, first)
    ensures Ready(Before(st, events, i), m)
    ensures PartitionAt(st, events, m, i, first) == PartitionAt(st, events, m, from, first) - (i - from)
    ensures forall k | from <= k < i :: AppliedAt(Before(st, events, k), events[k])
  {
    hide Before, PartitionAt, InRound, Ready, AppliedAt;
    if from < i {
      UpgradeWalks(st, events, m, first, from, i - 1);
      WalkStep(st, events, m, i - 1, first);
    }
  }

  lemma {:induction false} RoundIsRun(st: Status, e: Event, m: Member, p: nat)
    requires Ready(st, m) && RoundEvent(e, st, m, p)
    ensures Ran(st, e)
  {
    hide SyncEntries.Stored, SyncEntries.Pending, ScanReleases, CheckSeesBoth, OtherPasses, Control;
  }

  // ----- the first reconcile -----

  /** Nothing pending, nothing in the way of the manager. */
  ghost predicate Idle(st: Status, m: Member) {
    && WellFormed(st) && st.clusterPhase != ClusterUnset && PhaseProperties.PendingOf(st, m) == {}
    && !st.IsFalse(Conditions.SyncChecked(m)) && !st.Of(m).Scaling()
  }

  /** The set is found with another template. */
  ghost predicate TemplateFound(e: Event, st: Status, m: Member) {
    var a := e.answers.Manager(m);
    && Watched(e, m) && !e.spec.Of(m).value.onDelete
    && a.servicesOk && a.configOk && a.updateOk && a.sts.StsFound? && !a.sts.existing.templateEqual
    && a.sts.existing.replicas == Managers.NewSet(e.spec, st, m).replicas
  }

  /** And the controller has begun to see the new one; the other member is in order. */
  ghost predicate RolloutFound(e: Event, st: Status, m: Member) {
    && TemplateFound(e, st, m) && CheckSeesBoth(e, st, m)
    && e.answers.Phase(m).getSts.Some? && PhaseSync.IsUpgrading(e.answers.Phase(m).getSts.value)
    && OtherPasses(e, st, Verification.Other(m)) && OtherReleased(e, st, m)
  }

  ghost predicate TemplateEvent(e: Event, st: Status, m: Member) {
    RolloutFound(e, st, m) && Stores(e.spec, st, e.answers, e.now)
  }

  /** The record that opens a rollout. */
  ghost predicate Opened(st: Status, s: Status, m: Member) {
    && s.Of(m).phase == Upgrading && s.Of(m).failureMembers == st.Of(m).failureMembers
    && s.Of(m).syncTypes == SyncEntries.SetStatus(st.Of(m).syncTypes, UpgradeType, Ongoing)
  }

  /** The manager writes the new template with the partition at the replica count, and puts the
      upgrade on record. */
  lemma {:induction false} TemplateIsWritten(e: Event, st: Status, m: Member)
    requires Idle(st, m) && TemplateFound(e, st, m)
    ensures var r := Managers.Sync(e.spec, st, m, e.answers.Manager(m), e.now);
      && r.outcome == Done && r.effect.Adjusted? && r.effect.written.Some?
      && r.effect.written.value.strategy.partition == Some(e.spec.Of(m).value.replicas)
      && Opened(st, r.status, m)
  {
    hide Upgrading.Scan, Scaling.ScaleOut, Scaling.ScaleIn, Conditions.Set, Conditions.Find, SyncEntries.SetStatus,
      WellFormed;
    var a := e.answers.Manager(m);
    Managers.UpgradeStatus(e.spec, st, m, a.sts.existing, Managers.NewSet(e.spec, st, m), a.pods, e.now);
  }

  lemma {:induction false} IdleReads(e: Event, a: Status, b: Status)
    requires Idle(a, Executor) && TemplateFound(e, a, Executor) && Managers.Guarded(a, b, Master)
    ensures Idle(b, Executor) && TemplateFound(e, b, Executor)
  {
    hide SyncEntries.Pending, SyncEntries.UniqueNames, Conditions.UniqueKinds;
    GuardedKeepsClosed(a, b, Master, Executor);
    assert DesiredReplicas(e.spec, b, Executor) == DesiredReplicas(e.spec, a, Executor);
  }

  lemma {:induction false} ManagersWriteTemplate(e: Event, st: Status, m: Member)
    requires Idle(st, m) && RolloutFound(e, st, m)
    ensures var r := Managers.Sync(e.spec, st, Master, e.answers.masterManager, e.now);
      var x := Managers.Sync(e.spec, r.status, Executor, e.answers.executorManager, e.now);
      var effect := if m.Master? then r.effect else x.effect;
      && r.outcome == Done && x.outcome == Done
      && effect.Adjusted? && effect.written.Some?
      && effect.written.value.strategy.partition == Some(e.spec.Of(m).value.replicas)
      && Opened(st, x.status, m) && SameFailures(st, x.status)
      && WellFormed(x.status) && x.status.clusterPhase == st.clusterPhase
  {
    hide Managers.Sync, Conditions.Find, SyncEntries.Stored, OtherPasses, CheckSeesBoth, Idle, WellFormed,
      TemplateFound,
      SyncEntries.SetStatus, Convergence.Released;
    var r := Managers.Sync(e.spec, st, Master, e.answers.masterManager, e.now);
    Managers.SyncIsGuarded(e.spec, st, Master, e.answers.masterManager, e.now);
    Managers.SyncIsGuarded(e.spec, r.status, Executor, e.answers.executorManager, e.now);
    FoundIsWatched(e, st, m);
    if m.Master? {
      TemplateIsWritten(e, st, Master);
      OtherReadsFailures(e, st, r.status, Executor);
      if e.spec.executor.Some? { Convergence.ReleaseReads(e, st, r.status, Executor); }
      OtherManagerPasses(e, r.status, Executor);
    } else {
      OtherManagerPasses(e, st, Master);
      IdleReads(e, st, r.status);
      TemplateIsWritten(e, r.status, Executor);
    }
  }

  lemma {:induction false} FoundIsWatched(e: Event, st: Status, m: Member)
    requires Idle(st, m) && TemplateFound(e, st, m)
    ensures Watched(e, m) && WellFormed(st) && st.clusterPhase != ClusterUnset
  {
  }

  lemma {:induction false} TemplateApplies(st: Status, e: Event, m: Member)
    requires Idle(st, m) && RolloutFound(e, st, m) && Ran(st, e)
    ensures var effect := EffectAt(st, e, m);
      && effect.Adjusted? && effect.written.Some?
      && effect.written.value.strategy.partition == Some(e.spec.Of(m).value.replicas)
    ensures AppliedAt(st, e)
    ensures var t := PassAt(st, e).status;
      && t.IsTrue(Conditions.SyncChecked(m)) && t.clusterPhase != ClusterUnset && WellFormed(t) && Opened(st, t, m)
      && t.Of(m).sts == e.answers.Check(m).sts
  {
    hide Managers.Sync, Verification.ConditionSync, OtherPasses, CheckSeesBoth, Conditions.Find, CheckDone,
      TemplateFound,
      SyncEntries.FindPos, SyncEntries.Pending, WellFormed, SyncEntries.SetStatus;
    FoundIsWatched(e, st, m);
    ManagersWriteTemplate(e, st, m);
    var r := Managers.Sync(e.spec, st, Master, e.answers.masterManager, e.now);
    var x := Managers.Sync(e.spec, r.status, Executor, e.answers.executorManager, e.now);
    SeenBothHasSnapshot(e, st, m);
    MidwayIsDone(e, st, x.status, m);
    PassApplies(st, e, m, x.status);
  }

  /** The reconcile that brings a new template: it is written with the partition at the replica
      count, both checks pass, and the rollout is under way with the gate open. */
  lemma {:induction false} TemplateReconcile(st: Status, e: Event, m: Member)
    requires Idle(st, m) && TemplateEvent(e, st, m) && Ran(st, e)
    ensures var effect := EffectAt(st, e, m);
      && effect.Adjusted? && effect.written.Some?
      && effect.written.value.strategy.partition == Some(e.spec.Of(m).value.replicas)
    ensures AppliedAt(st, e) && Ready(Step(st, e), m)
  {
    hide Control, OtherPasses, CheckSeesBoth, Conditions.Find, TemplateFound, PhaseSync.SyncClusterPhase,
      SyncEntries.FindPos, SyncEntries.Pending, WellFormed, SyncEntries.SetStatus;
    FoundIsWatched(e, st, m);
    TemplateApplies(st, e, m);
    SeenBothHasSnapshot(e, st, m);
    OpenedIsOnCourse(st, PassAt(st, e).status, m);
    CourseDerives(st, e, m);
    DerivationKeepsConditions(e.spec, PassAt(st, e).status, e.answers);
  }

  lemma {:induction false} OpenedIsOnCourse(st: Status, t: Status, m: Member)
    requires Idle(st, m) && Opened(st, t, m) && WellFormed(t) && t.clusterPhase != ClusterUnset
    requires t.Of(m).sts.Some? && !Verification.UpToDate(t.Of(m).sts)
    ensures OnCourse(t, m)
  {
    hide SyncEntries.SetStatus, SyncEntries.FindPos, Conditions.UniqueKinds, Conditions.Find;
    SyncEntries.SetStatusPending(st.Of(m).syncTypes, UpgradeType, Ongoing);
  }
}
