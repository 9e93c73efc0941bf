/** An upgrade error and what comes after it: as long as the rollout is not finished by others,
    nothing; once it is, Apply. */
module FailedUpgrades {
  import opened Api
  import opened Clusters
  import opened Reconciling
  import opened Gate
  import opened Convergence
  import RunningSoundness
  import Conditions
  import SyncEntries
  import Managers
  import Members
  import Scaling
  import Upgrading
  import Verification
  import PhaseSync

  /** The persisted trace of an upgrade that ended in an error. */
  ghost predicate FailedUpgrade(st: Status, m: Member) {
    && st.clusterPhase != ClusterUnset
    && st.IsFalse(Conditions.SyncChecked(m)) && st.Of(m).Stored(UpgradeType) == Some(Failed)
    && st.Of(m).phase != Running
  }

  /** The member is local and checked, and nobody forces an upgrade. */
  ghost predicate Watched(e: Event, m: Member) {
    e.spec.Of(m).Some? && !e.spec.forceUpgrade && (m.Master? ==> !e.spec.heterogeneous)
  }

  /** The set still there, and the snapshot mid-rollout. */
  ghost predicate MidRollout(e: Event, m: Member) {
    && Watched(e, m) && !e.answers.Manager(m).sts.StsMissing?
    && !Verification.UpToDate(e.answers.Check(m).sts)
  }

  predicate UpgradeError(e: Managers.Effect) { e.Adjusted? && e.upgraded && e.written.None? }

  /** A manager that looked at an upgrade and wrote nothing leaves a Failed entry behind a False
      condition, unless it crashed. */
  lemma {:induction false} UpgradeErrorIsMarked(spec: Spec, st: Status, m: Member, a: Managers.Answers, now: int)
    requires UpgradeError(Managers.Sync(spec, st, m, a, now).effect)
    requires Managers.Sync(spec, st, m, a, now).outcome != Panic
    ensures var r := Managers.Sync(spec, st, m, a, now);
      && r.outcome != Done
      && r.status.IsFalse(Conditions.SyncChecked(m)) && r.status.Of(m).Stored(UpgradeType) == Some(Failed)
  {
    hide Managers.Guarded, Managers.Adjust, Conditions.Find, SyncEntries.FindPos;
    Managers.SyncIsGuarded(spec, st, m, a, now);
    AdjustErrorIsMarked(spec, st, m, a.sts.existing, a, now);
  }

  lemma {:induction false} AdjustErrorIsMarked(spec: Spec, st: Status, m: Member, existing: Upgrading.StsObject,
      a: Managers.Answers, now: int)
    requires spec.Of(m).Some?
    ensures var r := Managers.Adjust(spec, st, m, existing, a, now);
      UpgradeError(r.effect) && r.outcome != Panic ==>
        r.outcome != Done && r.status.Of(m).Stored(UpgradeType) == Some(Failed)
  {
    hide Upgrading.GracefulUpgrade, Scaling.Scale, SyncEntries.FindPos;
  }

  /** From the error to the trace: if the status of that reconcile is stored, it is a trace. */
  lemma {:induction false} UpgradeErrorEntersTrace(st: Status, e: Event, m: Member)
    requires Ran(st, e) && Stores(e.spec, st, e.answers, e.now) && UpgradeError(EffectAt(st, e, m))
    ensures FailedUpgrade(Step(st, e), m)
  {
    hide Managers.Sync, PhaseSync.SyncClusterPhase, Conditions.Find, SyncEntries.Stored, FailedUpgrade,
      Verification.ConditionSync;
    var spec, a := e.spec, e.answers;
    var r := Managers.Sync(spec, st, Master, a.masterManager, e.now);
    var before := if m.Master? then st else r.status;
    UpgradeErrorIsMarked(spec, before, m, a.Manager(m), e.now);
    ControlGate(spec, st, a, e.now, m);
    Managers.SyncIsGuarded(spec, before, m, a.Manager(m), e.now);
    DerivedFromTrace(spec, PassAt(st, e).status, a, m, Step(st, e));
  }

  lemma {:induction false} ClosedManagerWaits(spec: Spec, st: Status, m: Member, a: Managers.Answers, now: int)
    requires st.IsFalse(Conditions.SyncChecked(m)) && !spec.forceUpgrade && !a.sts.StsMissing?
    ensures var r := Managers.Sync(spec, st, m, a, now);
      && r.status == st && r.effect == Managers.NoEffect
      && (a.servicesOk && a.configOk && a.sts.StsFound? ==> r.outcome == Done)
  {
    hide Managers.Adjust;
  }

  lemma {:induction false} MidRolloutFailsCheck(spec: Spec, st: Status, m: Member, a: Verification.Answers, now: int)
    requires spec.Of(m).Some? && (m.Master? ==> !spec.heterogeneous)
    requires st.Of(m).Stored(UpgradeType) == Some(Failed) && !Verification.UpToDate(a.sts)
    ensures Verification.Verify(spec, st, m, a, now).outcome == NotReadyErr
  {
    hide Conditions.Set, Verification.VerifyReplicas, SyncEntries.Stored;
  }

  /** The control loop on such a trace: the member's manager does nothing and Apply is not
      reached, so trace and entry stay. */
  lemma {:induction false} ControlKeepsTrace(spec: Spec, st: Status, a: Answers, now: int, m: Member)
    requires st.IsFalse(Conditions.SyncChecked(m)) && st.Of(m).Stored(UpgradeType) == Some(Failed)
    requires MidRollout(Event(spec, a, now), m)
    ensures var p := Control(spec, st, a, now);
      && !p.applied && p.Effect(m) == Managers.NoEffect
      && p.status.IsFalse(Conditions.SyncChecked(m)) && p.status.Of(m).syncTypes == st.Of(m).syncTypes
      && p.status.clusterPhase == st.clusterPhase
  {
    hide Managers.Sync, Verification.Verify, Conditions.Find, SyncEntries.Stored, WellFormed, Verification.Apply;
    var r := Managers.Sync(spec, st, Master, a.masterManager, now);
    var e := Managers.Sync(spec, r.status, Executor, a.executorManager, now);
    Managers.SyncIsGuarded(spec, st, Master, a.masterManager, now);
    Managers.SyncIsGuarded(spec, r.status, Executor, a.executorManager, now);
    GuardedKeepsClosed(st, r.status, Master, m);
    GuardedKeepsClosed(r.status, e.status, Executor, m);
    ClosedManagerWaits(spec, if m.Master? then st else r.status, m, a.Manager(m), now);
    var v := Verification.Verify(spec, e.status, Master, a.masterCheck, now);
    var w := Verification.Verify(spec, v.status, Executor, a.executorCheck, now);
    Verification.VerifyKeeps(spec, e.status, Master, a.masterCheck, now);
    Verification.VerifyKeeps(spec, v.status, Executor, a.executorCheck, now);
    assert e.status.Of(m).syncTypes == st.Of(m).syncTypes;
    MidRolloutFailsCheck(spec, if m.Master? then e.status else v.status, m, a.Check(m), now);
  }

  lemma {:induction false} PhaseFromTrace(spec: Spec, t: Status, a: PhaseSync.Answers, m: Member)
    requires t.IsFalse(Conditions.SyncChecked(m)) && t.Of(m).Stored(UpgradeType) == Some(Failed)
    requires spec.Of(m).Some?
    ensures PhaseSync.SyncPhase(spec, t, m, a) == Some(SetPhase(t, m, PhaseSync.PhaseFor(t.Of(m).syncTypes)))
    ensures PhaseSync.PhaseFor(t.Of(m).syncTypes) != Running
  {
    hide PhaseSync.FromCluster, SyncEntries.FindPos, Conditions.Find;
    var entries := t.Of(m).syncTypes;
    assert entries[SyncEntries.FindPos(UpgradeType, entries)].status == Failed;
  }

  lemma {:induction false} DerivedFromTrace(spec: Spec, t: Status, a: Answers, m: Member, after: Status)
    requires t.IsFalse(Conditions.SyncChecked(m)) && t.Of(m).Stored(UpgradeType) == Some(Failed)
    requires spec.Of(m).Some? && t.clusterPhase != ClusterUnset
    requires PhaseSync.SyncClusterPhase(spec, t, a.masterPhase, a.executorPhase) == Some(after)
    ensures FailedUpgrade(after, m)
  {
    hide PhaseSync.SyncPhase, SyncEntries.Stored, Conditions.Find, PhaseSync.PhaseFor, WellFormed;
    var s1 := PhaseSync.SyncPhase(spec, t, Master, a.masterPhase).value;
    var s2 := PhaseSync.SyncPhase(spec, s1, Executor, a.executorPhase).value;
    RunningSoundness.PhaseIsLocal(spec, t, Master, a.masterPhase, s1);
    RunningSoundness.PhaseIsLocal(spec, s1, Executor, a.executorPhase, s2);
    PhaseFromTrace(spec, if m.Master? then t else s1, a.Phase(m), m);
    assert after.Of(m) == s2.Of(m) == (if m.Master? then s1.Of(m) else s2.Of(m));
    assert after.Of(m).syncTypes == t.Of(m).syncTypes && after.Of(m).phase != Running;
  }

  /** An upgrade error is a dead end: as long as nobody forces an upgrade and the rollout does
      not finish without the operator, no reconcile touches the member's set again, Apply is
      never reached, and the member never shows Running. */
  lemma {:induction false} FailedUpgradeIsStuck(st: Status, events: seq<Event>, m: Member)
    requires FailedUpgrade(st, m)
    requires forall i | 0 <= i < |events| :: MidRollout(events[i], m)
    ensures FailedUpgrade(Run(st, events), m)
    ensures forall i | 0 <= i < |events| ::
      EffectAt(Before(st, events, i), events[i], m) == Managers.NoEffect && !AppliedAt(Before(st, events, i), events[i])
  {
    hide Control, MidRollout, PhaseSync.SyncClusterPhase, FailedUpgrade;
    if events != [] {
      var n := |events| - 1;
      FailedUpgradeIsStuck(st, events[..n], m);
      StuckStep(Run(st, events[..n]), events[n], m);
      forall i | 0 <= i < n
        ensures EffectAt(Before(st, events, i), events[i], m) == Managers.NoEffect
        ensures !AppliedAt(Before(st, events, i), events[i])
      {
        assert events[..n][..i] == events[..i];
        assert events[..n][i] == events[i];
        assert Before(st, events[..n], i) == Before(st, events, i);
      }
    }
  }

  lemma {:induction false} StuckStep(st: Status, e: Event, m: Member)
    requires FailedUpgrade(st, m) && MidRollout(e, m)
    ensures FailedUpgrade(Step(st, e), m)
    ensures EffectAt(st, e, m) == Managers.NoEffect && !AppliedAt(st, e)
  {
    hide Control, PhaseSync.SyncClusterPhase, Conditions.Find, SyncEntries.FindPos;
    if Ran(st, e) {
      ControlKeepsTrace(e.spec, st, e.answers, e.now, m);
      if Stores(e.spec, st, e.answers, e.now) {
        DerivedFromTrace(e.spec, PassAt(st, e).status, e.answers, m, Step(st, e));
      }
    }
  }

  // ----- the way out -----

  /** The other member is as the specification wants it, or there is nothing to check. */
  ghost predicate OtherPasses(e: Event, st: Status, other: Member) {
    var c := e.answers.Check(other);
    if e.spec.Of(other).None? then Verification.Skipped(e.spec, other)
    else
      && SetInPlace(e, st, other)
      && (Verification.Skipped(e.spec, other) || (c.sts.Some? && InOrder(e, st, other, c.sts.value)))
  }

  /** Everything that the reconcile learns is in order, apart from whether the member's revisions
      are equal. Where they are, the replicas and the reported members have to be right as well; in
      the middle of a rollout they may be anything. */
  ghost predicate RestPasses(e: Event, st: Status, m: Member) {
    var a, c := e.answers.Manager(m), e.answers.Check(m);
    && e.answers.fetched && Watched(e, m) && a.servicesOk && a.configOk && a.sts.StsFound?
    && (Verification.UpToDate(c.sts) ==>
          && DesiredReplicas(e.spec, st, m) == c.sts.value.currentReplicas == c.sts.value.readyReplicas
          && Verification.Answered(e.spec, st, m, c))
    && OtherPasses(e, st, Verification.Other(m))
  }

  /** The other member has no rollout of its own going on. */
  ghost predicate OtherReleased(e: Event, st: Status, m: Member) {
    e.spec.Of(Verification.Other(m)).Some? ==> Released(e, st, Verification.Other(m))
  }

  lemma {:induction false} InOrderReadsFailures(e: Event, a: Status, b: Status, m: Member, sts: StsStatus)
    requires InOrder(e, a, m, sts) && b.Of(m).failureMembers == a.Of(m).failureMembers
    ensures InOrder(e, b, m, sts)
  {
    hide Members.OwnMembers;
    assert DesiredReplicas(e.spec, b, m) == DesiredReplicas(e.spec, a, m);
  }

  lemma {:induction false} OtherReadsFailures(e: Event, a: Status, b: Status, other: Member)
    requires OtherPasses(e, a, other) && b.Of(other).failureMembers == a.Of(other).failureMembers
    ensures OtherPasses(e, b, other)
  {
    hide InOrder;
    var c := e.answers.Check(other);
    if c.sts.Some? && InOrder(e, a, other, c.sts.value) { InOrderReadsFailures(e, a, b, other, c.sts.value); }
  }

  lemma {:induction false} OtherManagerPasses(e: Event, st: Status, other: Member)
    requires OtherPasses(e, st, other) && !e.spec.forceUpgrade
    requires e.spec.Of(other).Some? ==> Released(e, st, other)
    ensures var r := Managers.Sync(e.spec, st, other, e.answers.Manager(other), e.now);
      && r.outcome == Done && r.status.Of(other).sts == st.Of(other).sts
      && r.status.Of(other).failureMembers == st.Of(other).failureMembers
      && r.status.Of(other).members == st.Of(other).members
  {
    hide Managers.Adjust, Managers.Create, InOrder, Released;
    if e.spec.Of(other).Some? { ManagerIsIdle(e, st, other); }
  }

  lemma {:induction false} OtherCheckPasses(e: Event, st: Status, other: Member)
    requires OtherPasses(e, st, other)
    ensures var v := Verification.Verify(e.spec, st, other, e.answers.Check(other), e.now);
      && v.outcome == Done
      && (Verification.UpToDate(v.status.Of(other).sts) || v.status.Of(other).sts == st.Of(other).sts)
  {
    hide Verification.VerifyVersion, Conditions.Set, Verification.Answered, SetInPlace;
    if !Verification.Skipped(e.spec, other) { CheckPasses(e, st, other, e.answers.Check(other).sts.value); }
  }

  /** The managers of a pass on a trace: the member's waits, the other's is idle. */
  lemma {:induction false} ManagersPass(e: Event, st: Status, m: Member)
    requires FailedUpgrade(st, m) && RestPasses(e, st, m) && OtherReleased(e, st, m)
    ensures var r := Managers.Sync(e.spec, st, Master, e.answers.masterManager, e.now);
      var x := Managers.Sync(e.spec, r.status, Executor, e.answers.executorManager, e.now);
      && r.outcome == Done && x.outcome == Done
      && (forall k: Member :: x.status.Of(k).failureMembers == st.Of(k).failureMembers)
      && (forall k: Member :: x.status.Of(k).sts == st.Of(k).sts && x.status.Of(k).members == st.Of(k).members)
  {
    hide Managers.Sync, Conditions.Find, SyncEntries.Stored, OtherPasses, WellFormed, Verification.Answered;
    var r := Managers.Sync(e.spec, st, Master, e.answers.masterManager, e.now);
    Managers.SyncIsGuarded(e.spec, st, Master, e.answers.masterManager, e.now);
    Managers.SyncIsGuarded(e.spec, r.status, Executor, e.answers.executorManager, e.now);
    if m.Master? {
      ClosedManagerWaits(e.spec, st, Master, e.answers.masterManager, e.now);
      OtherManagerPasses(e, st, Executor);
    } else {
      OtherManagerPasses(e, st, Master);
      GuardedKeepsClosed(st, r.status, Master, Executor);
      ClosedManagerWaits(e.spec, r.status, Executor, e.answers.executorManager, e.now);
    }
  }

  /** The way out of the trace: when the rest is in order, a pass reaches Apply exactly if the
      member's revisions are equal. */
  lemma {:induction false} TraceIsLeftExactly(st: Status, e: Event, m: Member)
    requires FailedUpgrade(st, m) && RestPasses(e, st, m) && OtherReleased(e, st, m)
    ensures AppliedAt(st, e) <==> Verification.UpToDate(e.answers.Check(m).sts)
  {
    hide Managers.Sync, Verification.Verify, Verification.Apply, FailedUpgrade, OtherPasses, Verification.Answered;
    assert Ran(st, e) by { TraceHasPhase(st, m); }
    if !Verification.UpToDate(e.answers.Check(m).sts) {
      StuckStep(st, e, m);
    } else {
      ManagersPass(e, st, m);
      FirstErrorEndsPass(e.spec, st, e.answers, e.now);
      var r := Managers.Sync(e.spec, st, Master, e.answers.masterManager, e.now);
      var x := Managers.Sync(e.spec, r.status, Executor, e.answers.executorManager, e.now);
      var v := Verification.Verify(e.spec, x.status, Master, e.answers.masterCheck, e.now);
      Verification.VerifyKeeps(e.spec, x.status, Master, e.answers.masterCheck, e.now);
      CheckOfEach(e, st, x.status, m, Master);
      CheckOfEach(e, st, v.status, m, Executor);
    }
  }

  lemma {:induction false} TraceHasPhase(st: Status, m: Member)
    requires FailedUpgrade(st, m)
    ensures st.clusterPhase != ClusterUnset
  {
  }

  lemma {:induction false} CheckOfEach(e: Event, st: Status, s: Status, m: Member, k: Member)
    requires RestPasses(e, st, m) && Verification.UpToDate(e.answers.Check(m).sts)
    requires s.Of(k).failureMembers == st.Of(k).failureMembers
    ensures Verification.Verify(e.spec, s, k, e.answers.Check(k), e.now).outcome == Done
  {
    hide Verification.Verify, Verification.Answered, OtherPasses;
    if k == m {
      var sts := e.answers.Check(m).sts.value;
      assert InOrder(e, st, m, sts);
      InOrderReadsFailures(e, st, s, m, sts);
      CheckPasses(e, s, m, sts);
    } else {
      OtherReadsFailures(e, st, s, k);
      OtherCheckPasses(e, s, k);
    }
  }

  lemma {:induction false} RestReadsFailures(e: Event, a: Status, b: Status, m: Member)
    requires RestPasses(e, a, m) && forall k: Member :: b.Of(k).failureMembers == a.Of(k).failureMembers
    ensures RestPasses(e, b, m)
  {
    hide Members.OwnMembers, OtherPasses;
    assert DesiredReplicas(e.spec, b, m) == DesiredReplicas(e.spec, a, m);
    OtherReadsFailures(e, a, b, Verification.Other(m));
  }

  lemma {:induction false} ControlKeepsOther(st: Status, e: Event, m: Member)
    requires FailedUpgrade(st, m) && RestPasses(e, st, m) && OtherReleased(e, st, m)
    requires OtherPasses(e, st, Verification.Other(m)) && Ran(st, e) && !AppliedAt(st, e)
    ensures SameForRelease(st, PassAt(st, e).status, Verification.Other(m))
  {
    hide Managers.Sync, Verification.Verify, Verification.Apply, FailedUpgrade, RestPasses, Verification.UpToDate,
      OtherPasses, Released;
    var other := Verification.Other(m);
    ManagersPass(e, st, m);
    var r := Managers.Sync(e.spec, st, Master, e.answers.masterManager, e.now);
    var x := Managers.Sync(e.spec, r.status, Executor, e.answers.executorManager, e.now);
    var v := Verification.Verify(e.spec, x.status, Master, e.answers.masterCheck, e.now);
    Verification.VerifyKeeps(e.spec, x.status, Master, e.answers.masterCheck, e.now);
    var before := if m.Master? then v.status else x.status;
    OtherReadsFailures(e, st, before, other);
    OtherCheckPasses(e, before, other);
  }

  /** A reconcile on the trace leaves the other member without a rollout. */
  lemma {:induction false} OtherStaysReleased(st: Status, e: Event, m: Member)
    requires FailedUpgrade(st, m) && RestPasses(e, st, m) && OtherReleased(e, st, m)
    requires !Verification.UpToDate(e.answers.Check(m).sts)
    ensures SameForRelease(st, Step(st, e), Verification.Other(m))
  {
    hide Control, FailedUpgrade, RestPasses, Verification.UpToDate, PhaseSync.SyncClusterPhase, OtherPasses,
      MidRollout,
      Released;
    TraceHasPhase(st, m);
    RestHasOther(e, st, m);
    StuckStep(st, e, m);
    if e.answers.fetched {
      ControlKeepsOther(st, e, m);
      DerivationKeepsSnapshots(e.spec, PassAt(st, e).status, e.answers, Verification.Other(m));
      ControlGate(e.spec, st, e.answers, e.now, m);
    }
  }

  lemma {:induction false} RestHasOther(e: Event, st: Status, m: Member)
    requires RestPasses(e, st, m)
    ensures OtherPasses(e, st, Verification.Other(m)) && Watched(e, m) && !e.answers.Manager(m).sts.StsMissing?
    ensures !Verification.UpToDate(e.answers.Check(m).sts) ==> MidRollout(e, m)
  {
  }

  /** Still on the trace, with the other member as it was. */
  ghost predicate StillStuck(st: Status, s: Status, m: Member) {
    && FailedUpgrade(s, m) && (forall k: Member :: s.Of(k).failureMembers == st.Of(k).failureMembers)
    && SameForRelease(st, s, Verification.Other(m))
  }

  lemma {:induction false} StuckOneMore(st: Status, s: Status, e: Event, m: Member)
    requires StillStuck(st, s, m) && RestPasses(e, st, m) && OtherReleased(e, st, m)
    requires !Verification.UpToDate(e.answers.Check(m).sts)
    ensures StillStuck(st, Step(s, e), m)
  {
    hide Step, RestPasses, Verification.UpToDate, FailedUpgrade, MidRollout, Released;
    RestReadsFailures(e, st, s, m);
    RestHasOther(e, st, m);
    StuckStep(s, e, m);
    StepKeepsFailures(s, e, Master);
    StepKeepsFailures(s, e, Executor);
    if e.spec.Of(Verification.Other(m)).Some? { ReleaseReads(e, st, s, Verification.Other(m)); }
    OtherStaysReleased(s, e, m);
  }

  lemma {:induction false} StuckUntil(st: Status, events: seq<Event>, m: Member, i: nat)
    requires FailedUpgrade(st, m) && i <= |events|
    requires forall k | 0 <= k < i :: RestPasses(events[k], st, m) && OtherReleased(events[k], st, m)
    requires forall k | 0 <= k < i :: !Verification.UpToDate(events[k].answers.Check(m).sts)
    ensures StillStuck(st, Before(st, events, i), m)
  {
    hide Before, Step, RestPasses, OtherReleased, Verification.UpToDate, FailedUpgrade;
    StartsAt(st, events);
    if i > 0 {
      StuckUntil(st, events, m, i - 1);
      BeforeNext(st, events, i - 1);
      StuckOneMore(st, Before(st, events, i - 1), events[i - 1], m);
    }
  }

  /** Over a whole run in which everything else is in order: some reconcile reaches Apply exactly
      if some reconcile finds the member's revisions equal. */
  lemma {:induction false} TraceLastsExactly(st: Status, events: seq<Event>, m: Member)
    requires FailedUpgrade(st, m)
    requires forall i | 0 <= i < |events| :: RestPasses(events[i], st, m) && OtherReleased(events[i], st, m)
    ensures (exists i | 0 <= i < |events| :: AppliedAt(Before(st, events, i), events[i])) <==>
      (exists i | 0 <= i < |events| :: Verification.UpToDate(events[i].answers.Check(m).sts))
  {
    hide Before, AppliedAt, RestPasses, Released, Verification.UpToDate, FailedUpgrade, MidRollout;
    if i :| 0 <= i < |events| && Verification.UpToDate(events[i].answers.Check(m).sts) {
      var first := FirstUpToDate(events, m, i);
      StuckUntil(st, events, m, first);
      var s := Before(st, events, first);
      RestReadsFailures(events[first], st, s, m);
      if events[first].spec.Of(Verification.Other(m)).Some? {
        ReleaseReads(events[first], st, s, Verification.Other(m));
      }
      TraceIsLeftExactly(s, events[first], m);
    } else {
      forall i | 0 <= i < |events| ensures MidRollout(events[i], m) {
        RestHasOther(events[i], st, m);
      }
      FailedUpgradeIsStuck(st, events, m);
    }
  }

  lemma {:induction false} FirstUpToDate(events: seq<Event>, m: Member, i: nat) returns (first: nat)
    requires i < |events| && Verification.UpToDate(events[i].answers.Check(m).sts)
    ensures first <= i && Verification.UpToDate(events[first].answers.Check(m).sts)
    ensures forall k | 0 <= k < first :: !Verification.UpToDate(events[k].answers.Check(m).sts)
  {
    if k :| 0 <= k < i && Verification.UpToDate(events[k].answers.Check(m).sts) {
      first := FirstUpToDate(events, m, k);
    } else {
      first := i;
    }
  }
}
