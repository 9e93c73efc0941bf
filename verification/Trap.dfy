/** The early return as a trap, and which runs from a new status enter it. */
module Trap {
  import opened Api
  import opened Clusters
  import opened Reconciling
  import opened Gate
  import RunningSoundness
  import Conditions
  import SyncEntries
  import Managers
  import Members
  import Scaling
  import Upgrading
  import Verification
  import PhaseSync
  import PhaseProperties
  import Convergence

  /** Checked, nothing pending, and yet not shown as Running. */
  ghost predicate Trapped(st: Status, m: Member) {
    && st.clusterPhase != ClusterUnset && st.IsTrue(Conditions.SyncChecked(m))
    && PhaseProperties.PendingOf(st, m) == {} && st.Of(m).phase != Running
  }

  /** A reconcile that got past the initialisation and whose status was stored. */
  predicate Full(st: Status, e: Event) { Ran(st, e) && Stores(e.spec, st, e.answers, e.now) }

  /** Whether the first full reconcile reached Apply. */
  function FirstPass(st: Status, events: seq<Event>): Option<bool> {
    if events == [] then None
    else
      var front, last := events[..|events| - 1], events[|events| - 1];
      var earlier := FirstPass(st, front);
      if earlier.Some? then earlier
      else if Full(Run(st, front), last) then Some(AppliedAt(Run(st, front), last))
      else None
  }

  ghost predicate SomethingPending(st: Status, m: Member) { exists n :: st.Of(m).IsPending(n) }

  lemma {:induction false} MarkedIsPending(st: Status, m: Member, name: SyncName, s: SyncStatus)
    requires s != Completed
    ensures SomethingPending(Mark(st, m, name, s), m)
  {
    hide SyncEntries.Stored;
    assert Mark(st, m, name, s).Of(m).IsPending(name);
  }

  lemma {:induction false} ScaleRecords(spec: Spec, st: Status, m: Member, actual: nat, desired: nat,
      a: Scaling.Answers, now: int)
    requires actual != desired
    ensures SomethingPending(Scaling.Scale(spec, st, m, actual, desired, a, now).status, m)
  {
    hide Conditions.Set, SyncEntries.SetStatus, Scaling.LeaderStops;
    var name := if actual < desired then ScaleOutType else ScaleInType;
    MarkedIsPending(SetCondition(st, Conditions.SyncChecked(m), false, now), m, name, Ongoing);
    MarkedIsPending(Scaling.Begin(st, m, name, now), m, name, Failed);
  }

  lemma {:induction false} UpgradeRecords(spec: Spec, st: Status, m: Member, existing: Upgrading.StsObject,
      d: Upgrading.Desired, pods: nat -> Upgrading.Pod, now: int)
    ensures var u := Upgrading.GracefulUpgrade(spec, st, m, existing, d, pods, now);
      SomethingPending(u.status, m) && SomethingPending(Mark(u.status, m, UpgradeType, Failed), m)
  {
    hide Upgrading.GracefulUpgrade, SyncEntries.SetStatus, Conditions.Set, SomethingPending;
    Managers.UpgradeStatus(spec, st, m, existing, d, pods, now);
    var s := if st.Of(m).Scaling() then st else SetPhase(st, m, Upgrading);
    MarkedIsPending(SetCondition(s, Conditions.SyncChecked(m), false, now), m, UpgradeType, Ongoing);
    MarkedIsPending(Upgrading.GracefulUpgrade(spec, st, m, existing, d, pods, now).status, m, UpgradeType, Failed);
  }

  lemma {:induction false} AdjustRecords(spec: Spec, st: Status, m: Member, existing: Upgrading.StsObject,
      a: Managers.Answers, now: int)
    requires spec.Of(m).Some?
    ensures var r := Managers.Adjust(spec, st, m, existing, a, now);
      Managers.Acts(r.effect) ==> SomethingPending(r.status, m)
  {
    hide Scaling.Scale, Upgrading.GracefulUpgrade, SyncEntries.SetStatus, SomethingPending, Managers.NewSet;
    var desired := Managers.NewSet(spec, st, m);
    if existing.replicas != desired.replicas {
      ScaleRecords(spec, st, m, existing.replicas, desired.replicas, a.scaling, now);
    }
    var scaled := Scaling.Scale(spec, st, m, existing.replicas, desired.replicas, a.scaling, now).status;
    UpgradeRecords(spec, scaled, m, existing, desired, a.pods, now);
  }

  /** A manager leaves the status alone, or something pending, or, forcing, the gate closed. */
  lemma {:induction false} ManagerRecords(spec: Spec, st: Status, m: Member, a: Managers.Answers, now: int)
    ensures var r := Managers.Sync(spec, st, m, a, now);
      || r.status == st || SomethingPending(r.status, m)
      || (r.status == SetPhase(st, m, Upgrading) && st.IsFalse(Conditions.SyncChecked(m)) && r.outcome != Done)
  {
    hide Managers.Adjust, Conditions.Set, SyncEntries.SetStatus, SomethingPending, Conditions.Find;
    var s := SetCondition(st, Conditions.SyncChecked(m), false, now);
    MarkedIsPending(s, m, CreateType, Ongoing);
    var created := Mark(s, m, CreateType, Ongoing);
    MarkedIsPending(created, m, CreateType, Failed);
    SnapshotKeepsPending(created, m);
    if spec.Of(m).Some? && a.sts.StsFound? {
      AdjustRecords(spec, st, m, a.sts.existing, a, now);
      Managers.AdjustIsGuarded(spec, st, m, a.sts.existing, a, now);
    }
  }

  lemma {:induction false} SnapshotKeepsPending(st: Status, m: Member)
    requires SomethingPending(st, m)
    ensures SomethingPending(SetSts(st, m, NEW_STS_STATUS), m)
  {
    var n :| st.Of(m).IsPending(n);
    assert SetSts(st, m, NEW_STS_STATUS).Of(m).IsPending(n);
  }

  /** A pass leaves the member's record alone, or something pending, or the gate closed. Where it
      leaves the record alone the gate is open exactly if it was or Apply was reached. */
  ghost predicate PassLeaves(st: Status, t: Status, applied: bool, m: Member) {
    || SomethingPending(t, m)
    || (t.Of(m).syncTypes == st.Of(m).syncTypes
        && (if t.Of(m).phase == st.Of(m).phase
            then t.IsTrue(Conditions.SyncChecked(m)) <==> applied || st.IsTrue(Conditions.SyncChecked(m))
            else !t.IsTrue(Conditions.SyncChecked(m)) && st.IsFalse(Conditions.SyncChecked(m))))
  }

  lemma {:induction false} FalseIsNotTrue(st: Status, m: Member)
    ensures !(st.IsFalse(Conditions.SyncChecked(m)) && st.IsTrue(Conditions.SyncChecked(m)))
  {
  }

  lemma {:induction false} PendingIsCopied(s: Status, t: Status, m: Member)
    requires SomethingPending(s, m) && t.Of(m).syncTypes == s.Of(m).syncTypes
    ensures SomethingPending(t, m)
  {
    var n :| s.Of(m).IsPending(n);
    assert t.Of(m).IsPending(n);
  }

  /** Condition Sync after the managers. */
  lemma {:induction false} SyncLeaves(spec: Spec, s: Status, a: Answers, now: int, m: Member)
    ensures var v := Verification.ConditionSync(spec, s, a.masterCheck, a.executorCheck, now);
      && v.status.Of(m).syncTypes == s.Of(m).syncTypes && v.status.Of(m).phase == s.Of(m).phase
      && (v.status.IsTrue(Conditions.SyncChecked(m)) <==> v.outcome == Done || s.IsTrue(Conditions.SyncChecked(m)))
      && (WellFormed(s) ==> WellFormed(v.status))
  {
    hide Verification.Verify, Verification.Apply, Conditions.Find, Conditions.UniqueKinds, SyncEntries.UniqueNames;
    var v := Verification.Verify(spec, s, Master, a.masterCheck, now);
    var w := Verification.Verify(spec, v.status, Executor, a.executorCheck, now);
    Verification.VerifyKeeps(spec, s, Master, a.masterCheck, now);
    Verification.VerifyKeeps(spec, v.status, Executor, a.executorCheck, now);
    Verification.ApplyMakesTrue(w.status, now);
  }

  lemma {:induction false} ControlLeaves(spec: Spec, st: Status, a: Answers, now: int, m: Member)
    requires WellFormed(st)
    ensures var p := Control(spec, st, a, now);
      WellFormed(p.status) && p.status.clusterPhase == st.clusterPhase && PassLeaves(st, p.status, p.applied, m)
  {
    hide Managers.Sync, Verification.ConditionSync, Conditions.Find, SyncEntries.Stored, SomethingPending, WellFormed;
    var r := Managers.Sync(spec, st, Master, a.masterManager, now);
    var e := Managers.Sync(spec, r.status, Executor, a.executorManager, now);
    Managers.SyncIsGuarded(spec, st, Master, a.masterManager, now);
    Managers.SyncIsGuarded(spec, r.status, Executor, a.executorManager, now);
    ManagerRecords(spec, if m.Master? then st else r.status, m, a.Manager(m), now);
    SyncLeaves(spec, e.status, a, now, m);
    ControlGate(spec, st, a, now, m);
    FalseIsNotTrue(st, m);
    if m.Master? && SomethingPending(r.status, m) { PendingIsCopied(r.status, e.status, m); }
    if SomethingPending(e.status, m) {
      var v := Verification.ConditionSync(spec, e.status, a.masterCheck, a.executorCheck, now);
      PendingIsCopied(e.status, v.status, m);
    }
  }

  lemma {:induction false} PendingIsListed(st: Status, m: Member)
    requires WellFormed(st)
    ensures SomethingPending(st, m) <==> PhaseProperties.PendingOf(st, m) != {}
    ensures SomethingPending(st, m) ==> st.Of(m).syncTypes != []
  {
    if SomethingPending(st, m) {
      var n :| st.Of(m).IsPending(n);
      PhaseProperties.PendingIffIsPending(st, m, n);
    }
    if PhaseProperties.PendingOf(st, m) != {} {
      var n :| n in PhaseProperties.PendingOf(st, m);
      PhaseProperties.PendingIffIsPending(st, m, n);
    }
  }

  /** Not Running only beside something pending. */
  ghost predicate Honest(st: Status, m: Member) {
    PhaseProperties.PendingOf(st, m) == {} ==> st.Of(m).phase == Running
  }

  /** What deriving the member's phase makes of a pass. */
  lemma {:induction false} Derivation(spec: Spec, t: Status, m: Member, a: PhaseSync.Answers, after: Status)
    requires WellFormed(t) && !PhaseSync.Shortcut(spec, m) && PhaseSync.SyncPhase(spec, t, m, a) == Some(after)
    ensures WellFormed(after) && after.conditions == t.conditions
    ensures after.Of(m).syncTypes == [] <==> t.Of(m).syncTypes == []
    ensures !SomethingPending(t, m) && t.IsTrue(Conditions.SyncChecked(m)) ==> after == t
    ensures SomethingPending(t, m) || !t.IsTrue(Conditions.SyncChecked(m)) ==> Honest(after, m)
  {
    hide PhaseSync.FromCluster, SyncEntries.FindPos, SyncEntries.Pending, Conditions.Find, SyncEntries.UniqueNames,
      Conditions.UniqueKinds, PhaseSync.Shortcut, SyncEntries.AllCompleted;
    PhaseProperties.FromClusterChangesOneEntry(spec, t, m, a);
    PendingIsListed(t, m);
    PendingIsListed(after, m);
    SyncEntries.CompletedMeansNothingPending(after.Of(m).syncTypes);
    if PhaseSync.FromCluster(spec, t, m, a).Changed? {
      var n, s :| PhaseSync.FromCluster(spec, t, m, a).status == Mark(t, m, n, s) && t.Of(m).IsPending(n);
      MarkIsListed(t, m, n, s);
    } else {
      CrashNeedsPending(spec, t, m, a);
    }
  }

  lemma {:induction false} MarkIsListed(t: Status, m: Member, n: SyncName, s: SyncStatus)
    requires t.Of(m).IsPending(n)
    ensures Mark(t, m, n, s).Of(m).syncTypes != [] && t.Of(m).syncTypes != [] && SomethingPending(t, m)
  {
  }

  lemma {:induction false} CrashNeedsPending(spec: Spec, t: Status, m: Member, a: PhaseSync.Answers)
    ensures PhaseSync.FromCluster(spec, t, m, a) == PhaseSync.Crash ==> SomethingPending(t, m)
  {
    hide SyncEntries.Stored, SyncEntries.SetStatus, PhaseSync.JudgePods;
    if PhaseSync.FromCluster(spec, t, m, a) == PhaseSync.Crash {
      assert t.Of(m).IsPending(CreateType) || t.Of(m).IsPending(ScaleOutType) || t.Of(m).IsPending(ScaleInType)
          || t.Of(m).IsPending(UpgradeType);
    }
  }

  // ----- the stages of a run -----

  ghost predicate InTrap(st: Status, m: Member) {
    st.IsTrue(Conditions.SyncChecked(m)) && st.Of(m).syncTypes == [] && st.Of(m).phase == Starting
  }

  /** Where a run from a new status stands, by its first full reconcile. */
  ghost predicate Stage(st: Status, first: Option<bool>, m: Member) {
    WellFormed(st) &&
    if st.clusterPhase == ClusterUnset then st == NEW_STATUS && first == None
    else match first
      case None => st == PhaseSync.FirstReconcile(NEW_STATUS)
      case Some(applied) =>
        if applied && st.Of(m).syncTypes == [] then InTrap(st, m) else Honest(st, m)
  }

  lemma {:induction false} FullDerives(st: Status, e: Event, m: Member)
    requires Full(st, e) && WellFormed(st) && !PhaseSync.Shortcut(e.spec, m)
    ensures var t, after := PassAt(st, e).status, Step(st, e);
      && WellFormed(after) && after.clusterPhase != ClusterUnset && after.conditions == t.conditions
      && (after.Of(m).syncTypes == [] <==> t.Of(m).syncTypes == [])
      && (!SomethingPending(t, m) && t.IsTrue(Conditions.SyncChecked(m)) ==> after.Of(m) == t.Of(m))
      && (SomethingPending(t, m) || !t.IsTrue(Conditions.SyncChecked(m)) ==> Honest(after, m))
  {
    hide Control, PhaseSync.SyncPhase, SomethingPending, SyncEntries.Pending, Conditions.Find,
      SyncEntries.UniqueNames,
      Conditions.UniqueKinds, PhaseSync.Shortcut, PassLeaves;
    var t, a, spec := PassAt(st, e).status, e.answers, e.spec;
    ControlLeaves(spec, st, a, e.now, m);
    var s1 := PhaseSync.SyncPhase(spec, t, Master, a.masterPhase).value;
    var s2 := PhaseSync.SyncPhase(spec, s1, Executor, a.executorPhase).value;
    RunningSoundness.PhaseIsLocal(spec, t, Master, a.masterPhase, s1);
    RunningSoundness.PhaseIsLocal(spec, s1, Executor, a.executorPhase, s2);
    var before := if m.Master? then t else s1;
    if SomethingPending(t, m) { PendingIsCopied(t, before, m); }
    if SomethingPending(before, m) { PendingIsCopied(before, t, m); }
    Derivation(spec, before, m, a.Phase(m), if m.Master? then s1 else s2);
  }

  lemma {:induction false} FullStep(st: Status, e: Event, m: Member, first: Option<bool>)
    requires Full(st, e) && Stage(st, first, m) && !PhaseSync.Shortcut(e.spec, m)
    ensures Stage(Step(st, e), if first.Some? then first else Some(AppliedAt(st, e)), m)
  {
    hide Control, Step, Stores, SyncEntries.Pending, SomethingPending, Conditions.Find, WellFormed,
      PhaseSync.Shortcut;
    var t := PassAt(st, e).status;
    StageIsWellFormed(st, first, m);
    ControlLeaves(e.spec, st, e.answers, e.now, m);
    FullDerives(st, e, m);
    PendingIsListed(t, m);
    PendingIsListed(st, m);
    FirstIsUnchecked(m);
    FalseIsNotTrue(st, m);
    SamePending(st, t, m);
    SamePending(t, Step(st, e), m);
  }

  lemma {:induction false} SamePending(a: Status, b: Status, m: Member)
    ensures a.Of(m).syncTypes == b.Of(m).syncTypes ==>
      PhaseProperties.PendingOf(a, m) == PhaseProperties.PendingOf(b, m)
  {
  }

  lemma {:induction false} StageIsWellFormed(st: Status, first: Option<bool>, m: Member)
    requires Stage(st, first, m)
    ensures WellFormed(st)
  {
  }

  lemma {:induction false} FirstIsUnchecked(m: Member)
    ensures !PhaseSync.FirstReconcile(NEW_STATUS).IsTrue(Conditions.SyncChecked(m))
    ensures !PhaseSync.FirstReconcile(NEW_STATUS).IsFalse(Conditions.SyncChecked(m))
    ensures PhaseSync.FirstReconcile(NEW_STATUS).Of(m) == NEW_MEMBER_STATUS.(phase := Starting)
    ensures WellFormed(PhaseSync.FirstReconcile(NEW_STATUS)) && WellFormed(NEW_STATUS)
  {
  }

  lemma {:induction false} StageIsKept(events: seq<Event>, m: Member)
    requires forall i | 0 <= i < |events| :: !PhaseSync.Shortcut(events[i].spec, m)
    ensures Stage(Run(NEW_STATUS, events), FirstPass(NEW_STATUS, events), m)
  {
    hide Stage, Step, Full, AppliedAt;
    if events == [] {
      NewStage(m);
    } else {
      var front, last := events[..|events| - 1], events[|events| - 1];
      StageIsKept(front, m);
      var st := Run(NEW_STATUS, front);
      if Full(st, last) {
        FullStep(st, last, m, FirstPass(NEW_STATUS, front));
      } else {
        OtherStep(st, last, m, FirstPass(NEW_STATUS, front));
      }
    }
  }

  lemma {:induction false} NewStage(m: Member)
    ensures Stage(NEW_STATUS, None, m)
  {
    FirstIsUnchecked(m);
  }

  lemma {:induction false} OtherStep(st: Status, e: Event, m: Member, first: Option<bool>)
    requires !Full(st, e) && Stage(st, first, m)
    ensures Stage(Step(st, e), first, m)
  {
    hide Control, PhaseSync.SyncClusterPhase, Honest, InTrap, WellFormed;
    FirstIsUnchecked(m);
  }

  /** Which runs from a new status end in the trap: exactly those whose first full reconcile
      reached Apply and that have recorded no entry of the member since. */
  lemma {:induction false} TrapIsEnteredExactly(events: seq<Event>, m: Member)
    requires forall i | 0 <= i < |events| :: !PhaseSync.Shortcut(events[i].spec, m)
    ensures var st := Run(NEW_STATUS, events);
      Trapped(st, m) <==> FirstPass(NEW_STATUS, events) == Some(true) && st.Of(m).syncTypes == []
  {
    hide Run, FirstPass, SyncEntries.UniqueNames, Conditions.UniqueKinds, Conditions.Find;
    StageIsKept(events, m);
    FirstIsUnchecked(m);
    NothingIsPending();
  }

  lemma {:induction false} NothingIsPending()
    ensures SyncEntries.Pending([]) == {}
  {
  }

  // ----- a run into the trap -----

  /** Settled reconciles do not lead out of the trap. */
  lemma {:induction false} TrapLasts(st: Status, events: seq<Event>, at: Convergence.Snapshots, m: Member)
    requires Convergence.OnTrack(st) && Convergence.StartsSettled(st, events) && Trapped(st, m)
    requires forall i | 0 <= i < |events| :: Convergence.SettledEvent(events[i], st, at)
    ensures var now := Run(st, events);
      now.Of(m).phase != Running && (events != [] ==> now.clusterPhase != ClusterRunning)
  {
    hide Run, Convergence.SettledMember, Convergence.OnTrack, Conditions.Find, SyncEntries.Pending,
      Convergence.StartsSettled;
    Convergence.SettledRun(st, events, at);
    if events == [] { assert Run(st, events) == st by { RunOfNothing(st); } }
  }

  /** Whoever is trapped has no upgrade on record. */
  lemma {:induction false} TrappedStartsSettled(st: Status, events: seq<Event>)
    requires Convergence.OnTrack(st) && Trapped(st, Master) && Trapped(st, Executor)
    ensures Convergence.StartsSettled(st, events)
  {
    PhaseProperties.PendingIffIsPending(st, Master, UpgradeType);
    PhaseProperties.PendingIffIsPending(st, Executor, UpgradeType);
  }

  lemma {:induction false} RunOfNothing(st: Status)
    ensures Run(st, []) == st
  {
  }

  /** Right after the initialisation both sets are found in place, and nothing is recorded. */
  lemma {:induction false} ManagerFindsSet(st: Status, m: Member)
    requires st.Of(m).phase == Starting && st.Of(m).failureMembers == 0
    requires !st.IsFalse(Conditions.SyncChecked(m))
    ensures var r := Managers.Sync(Convergence.EMPTY_SPEC, st, m, Convergence.EmptyManager(), 0);
      r.outcome == Done && r.status == st
  {
    hide Conditions.Find, Upgrading.GracefulUpgrade, Scaling.ScaleOut, Scaling.ScaleIn;
  }

  lemma {:induction false} ChecksPass(st: Status, m: Member)
    requires st.Of(m).failureMembers == 0
    ensures var e := Convergence.EmptyEvent();
      var v := Verification.Verify(e.spec, st, m, e.answers.Check(m), 0);
      v.outcome == Done && v.status.Of(m).sts == Some(NEW_STS_STATUS)
  {
    hide Verification.Verify, Convergence.SetInPlace, Convergence.RolledOut, Members.OwnMembers;
    var e := Convergence.EmptyEvent();
    NobodyRegistered(Verification.Id(e.spec, m));
    Convergence.CheckPasses(e, st, m, NEW_STS_STATUS);
  }

  lemma {:induction false} NobodyRegistered(id: Members.Identity)
    ensures Members.OwnMembers(id, 0, []) == map[]
  {
  }

  lemma {:induction false} FirstFullPass(st: Status)
    requires st == PhaseSync.FirstReconcile(NEW_STATUS)
    ensures var p := PassAt(st, Convergence.EmptyEvent());
      && p.applied && p.outcome == Done && WellFormed(p.status) && p.status.clusterPhase == st.clusterPhase
      && InTrap(p.status, Master) && InTrap(p.status, Executor)
      && p.status.master.sts == p.status.executor.sts == Some(NEW_STS_STATUS)
  {
    hide Managers.Sync, Verification.Verify, Verification.Apply, Conditions.Find, SyncEntries.Stored,
      SyncEntries.UniqueNames, Conditions.UniqueKinds;
    var e := Convergence.EmptyEvent();
    FirstIsUnchecked(Master);
    FirstIsUnchecked(Executor);
    ManagerFindsSet(st, Master);
    ManagerFindsSet(st, Executor);
    ChecksPass(st, Master);
    var v := Verification.Verify(e.spec, st, Master, e.answers.masterCheck, 0);
    Verification.VerifyKeeps(e.spec, st, Master, e.answers.masterCheck, 0);
    ChecksPass(v.status, Executor);
    var w := Verification.Verify(e.spec, v.status, Executor, e.answers.executorCheck, 0);
    Verification.VerifyKeeps(e.spec, v.status, Executor, e.answers.executorCheck, 0);
    Verification.ApplyMakesTrue(w.status, 0);
  }

  lemma {:induction false} FirstFullStep(st: Status)
    requires st == PhaseSync.FirstReconcile(NEW_STATUS)
    ensures var after := Step(st, Convergence.EmptyEvent());
      Convergence.OnTrack(after) && Trapped(after, Master) && Trapped(after, Executor)
  {
    hide Control, PhaseSync.FromCluster, SyncEntries.UniqueNames, Conditions.UniqueKinds, Conditions.Find,
      Convergence.EmptyEvent;
    var e := Convergence.EmptyEvent();
    EmptyLocal(e);
    FirstFullPass(st);
    NothingIsPending();
    var t := PassAt(st, e).status;
    NothingToComplete(e.spec, t, Master, e.answers.masterPhase);
    NothingToComplete(e.spec, t, Executor, e.answers.executorPhase);
  }

  lemma {:induction false} EmptyLocal(e: Event)
    requires e == Convergence.EmptyEvent()
    ensures e.spec == Convergence.EMPTY_SPEC && e.answers.fetched && e.answers.stored
    ensures forall m: Member :: !PhaseSync.Shortcut(e.spec, m)
  {
  }

  lemma {:induction false} NothingToComplete(spec: Spec, t: Status, m: Member, a: PhaseSync.Answers)
    requires t.Of(m).syncTypes == []
    ensures PhaseSync.FromCluster(spec, t, m, a) == PhaseSync.Unchanged
  {
    RunningSoundness.EmptyListHasNothingPending(t, m, CreateType);
    RunningSoundness.EmptyListHasNothingPending(t, m, ScaleOutType);
    RunningSoundness.EmptyListHasNothingPending(t, m, ScaleInType);
    RunningSoundness.EmptyListHasNothingPending(t, m, UpgradeType);
  }

  /** The trap is reached: two reconciles from a new status, which find both sets in place, leave
      both members checked, settled and Starting, with no entry to complete; and however many
      settled reconciles follow, the cluster does not show Running. */
  lemma {:induction false} TrapIsReached(more: seq<Event>, at: Convergence.Snapshots)
    ensures var e := Convergence.EmptyEvent();
      var st := Run(NEW_STATUS, [e, e]);
      && Convergence.OnTrack(st) && Trapped(st, Master) && Trapped(st, Executor)
      && ((forall i | 0 <= i < |more| :: Convergence.SettledEvent(more[i], st, at)) && more != [] ==>
            Run(st, more).clusterPhase != ClusterRunning)
  {
    hide Step, Convergence.EmptyEvent, Convergence.SettledEvent, Trapped, Convergence.OnTrack;
    var e := Convergence.EmptyEvent();
    EmptyInitialises(e);
    assert [e, e][..1] == [e] && [e][..0] == [];
    assert Run(NEW_STATUS, [e]) == Step(Run(NEW_STATUS, []), e);
    FirstFullStep(Step(NEW_STATUS, e));
    var st := Run(NEW_STATUS, [e, e]);
    assert st == Step(Step(NEW_STATUS, e), e);
    if (forall i | 0 <= i < |more| :: Convergence.SettledEvent(more[i], st, at)) && more != [] {
      TrappedStartsSettled(st, more);
      TrapLasts(st, more, at, Master);
    }
  }

  lemma {:induction false} EmptyInitialises(e: Event)
    requires e == Convergence.EmptyEvent()
    ensures Step(NEW_STATUS, e) == PhaseSync.FirstReconcile(NEW_STATUS)
  {
    hide Control, PhaseSync.SyncClusterPhase;
  }
}
