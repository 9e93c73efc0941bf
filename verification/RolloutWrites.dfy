/** Who writes a set in the middle of its rollout. While the phase is Upgrading it is
    gracefulUpgrade; in any other phase the manager writes the set as it builds it, and that puts
    the partition back to the replica count. */
module RolloutWrites {
  import opened Api
  import opened Clusters
  import opened Reconciling
  import opened Gate
  import opened FailedUpgrades
  import RunningSoundness
  import Conditions
  import SyncEntries
  import Managers
  import Scaling
  import Upgrading
  import Verification
  import PhaseSync
  import PhaseProperties

  // ----- one manager -----

  /** The set as the specification wants it but for its partition, between two revisions. */
  ghost predicate BetweenRevisions(spec: Spec, st: Status, m: Member, existing: Upgrading.StsObject) {
    && spec.Of(m).Some? && !spec.Of(m).value.onDelete
    && existing.templateEqual && existing.replicas == Managers.NewSet(spec, st, m).replicas
    && !existing.strategy.onDelete && existing.strategy.partition.Some?
    && st.Of(m).sts.Some? && !Verification.UpToDate(st.Of(m).sts)
  }

  /** The write is gracefulUpgrade's exactly in phase Upgrading. A partition below the replica
      count is put back to it exactly in every other phase. */
  lemma {:induction false} PartitionIsReset(spec: Spec, st: Status, m: Member, existing: Upgrading.StsObject,
      a: Managers.Answers, now: int)
    requires BetweenRevisions(spec, st, m, existing)
    ensures var e := Managers.Adjust(spec, st, m, existing, a, now).effect;
      && e.Adjusted? && !e.scaled && (e.upgraded <==> st.Of(m).phase == Upgrading)
      && (e.written.Some? && existing.strategy.partition.value < existing.replicas == spec.Of(m).value.replicas ==>
            (e.written.value.strategy.partition == Some(spec.Of(m).value.replicas) <==> st.Of(m).phase != Upgrading))
  {
    hide Scaling.ScaleOut, Scaling.ScaleIn, Conditions.Set, SyncEntries.SetStatus, Upgrading.Look;
    if st.Of(m).phase == Upgrading {
      var s := Mark(SetCondition(st, Conditions.SyncChecked(m), false, now), m, UpgradeType, Ongoing);
      s := SetPhase(s, m, Upgrading);
      ScanBelow(spec, s, m, st.Of(m).sts.value.updateRevision, a.pods, existing.replicas);
    }
  }

  lemma {:induction false} ScanBelow(spec: Spec, st: Status, m: Member, target: string, pods: nat -> Upgrading.Pod,
                                     n: nat)
    ensures var r := Upgrading.Scan(spec, st, m, target, pods, n);
      r.ReleaseAt? ==> r.ordinal < n
  {
    hide Upgrading.Look;
    if n > 0 { ScanBelow(spec, st, m, target, pods, n - 1); }
  }

  // ----- runs -----

  /** An upgrade under way and on record, and nothing else pending. */
  ghost predicate Rolling(st: Status, m: Member) {
    && WellFormed(st) && st.clusterPhase != ClusterUnset && st.Of(m).phase == Upgrading
    && PhaseProperties.PendingOf(st, m) == {UpgradeType} && st.Of(m).Stored(UpgradeType) == Some(Ongoing)
    && st.Of(m).sts.Some? && !Verification.UpToDate(st.Of(m).sts)
  }

  /** An upgrade that the status manager lost sight of while the gate was open. */
  ghost predicate LostTrack(st: Status, m: Member) {
    && WellFormed(st) && st.clusterPhase != ClusterUnset && st.Of(m).phase == UnknownPhase
    && PhaseProperties.PendingOf(st, m) == {UpgradeType} && st.Of(m).Stored(UpgradeType) == Some(Unknown)
    && st.IsTrue(Conditions.SyncChecked(m)) && st.Of(m).sts.Some? && !Verification.UpToDate(st.Of(m).sts)
  }

  /** A reconcile in the middle of the rollout: the template and the replica count as they are,
      every revision seen as different. Anything may fail. */
  ghost predicate InRollout(e: Event, st: Status, m: Member) {
    var a := e.answers.Manager(m);
    && Watched(e, m) && !e.spec.Of(m).value.onDelete
    && a.sts.StsFound? && a.sts.existing.templateEqual
    && a.sts.existing.replicas == Managers.NewSet(e.spec, st, m).replicas
    && !a.sts.existing.strategy.onDelete && a.sts.existing.strategy.partition.Some?
    && !Verification.UpToDate(e.answers.Check(m).sts)
    && (e.answers.Phase(m).getSts.Some? ==> PhaseSync.IsUpgrading(e.answers.Phase(m).getSts.value))
  }

  /** The status manager examines the upgrade, and cannot read the set. */
  ghost predicate Loses(st: Status, e: Event, m: Member) {
    && Ran(st, e) && Stores(e.spec, st, e.answers, e.now)
    && PassAt(st, e).status.IsTrue(Conditions.SyncChecked(m))
    && PassAt(st, e).status.Of(m).Stored(UpgradeType) == Some(Ongoing)
    && e.answers.Phase(m).getSts.None?
  }

  lemma {:induction false} PhaseForOnly(st: Status, m: Member, name: SyncName)
    requires WellFormed(st) && PhaseProperties.PendingOf(st, m) == {name}
    ensures st.Of(m).Stored(name).Some?
    ensures PhaseSync.PhaseFor(st.Of(m).syncTypes) ==
      match st.Of(m).Stored(name).value
      case Failed => FailedPhase
      case Unknown => UnknownPhase
      case _ => PhaseOf(name)
  {
    SyncEntries.PendingIsStored(st.Of(m).syncTypes, name);
    PhaseForOnlyEntry(st.Of(m).syncTypes, name);
  }

  lemma {:induction false} PhaseForOnlyEntry(entries: seq<SyncEntries.Entry>, name: SyncName)
    requires SyncEntries.UniqueNames(entries) && SyncEntries.Pending(entries) == {name}
    ensures var pos := SyncEntries.FindPos(name, entries);
      pos >= 0 && PhaseSync.PhaseFor(entries) ==
        match entries[pos].status
        case Failed => FailedPhase
        case Unknown => UnknownPhase
        case _ => PhaseOf(name)
  {
    assert name in SyncEntries.Pending(entries);
    var i :| 0 <= i < |entries| && entries[i].status != Completed && entries[i].name == name;
    if entries[0].status == Completed {
      var rest := entries[1..];
      assert SyncEntries.Pending(rest) == {name} by {
        assert rest[i - 1].name in SyncEntries.Pending(rest);
        forall x | x in SyncEntries.Pending(rest) ensures x in SyncEntries.Pending(entries) {
          var k :| 0 <= k < |rest| && rest[k].status != Completed && rest[k].name == x;
          assert entries[k + 1].name in SyncEntries.Pending(entries);
        }
      }
      PhaseForOnlyEntry(rest, name);
    } else {
      assert entries[0].name in SyncEntries.Pending(entries);
    }
  }

  // ----- one pass -----

  /** The member's phase and entries stay, and its revisions still differ. */
  ghost predicate KeepsCourse(st: Status, t: Status, m: Member) {
    && t.Of(m).phase == st.Of(m).phase && t.Of(m).syncTypes == st.Of(m).syncTypes
    && t.Of(m).sts.Some? && !Verification.UpToDate(t.Of(m).sts)
  }

  lemma {:induction false} SameStatusSameList(entries: seq<SyncEntries.Entry>, name: SyncName, s: SyncStatus)
    requires SyncEntries.Stored(entries, name) == Some(s)
    ensures SyncEntries.SetStatus(entries, name, s) == entries
  {
  }

  lemma {:induction false} UpgradeKeepsCourse(spec: Spec, st: Status, m: Member, existing: Upgrading.StsObject,
      a: Managers.Answers, now: int)
    requires BetweenRevisions(spec, st, m, existing)
    requires st.Of(m).phase == Upgrading && st.Of(m).Stored(UpgradeType) == Some(Ongoing)
    ensures var r := Managers.Adjust(spec, st, m, existing, a, now);
      UpgradeError(r.effect) || r.status.Of(m) == st.Of(m)
  {
    hide Scaling.ScaleOut, Scaling.ScaleIn, Upgrading.GracefulUpgrade, Conditions.Set, SyncEntries.SetStatus,
      SyncEntries.Stored;
    Managers.UpgradeStatus(spec, st, m, existing, Managers.NewSet(spec, st, m), a.pods, now);
    SameStatusSameList(st.Of(m).syncTypes, UpgradeType, Ongoing);
  }

  lemma {:induction false} PlainWriteKeepsStatus(spec: Spec, st: Status, m: Member, existing: Upgrading.StsObject,
      a: Managers.Answers, now: int)
    requires BetweenRevisions(spec, st, m, existing) && st.Of(m).phase != Upgrading
    ensures var r := Managers.Adjust(spec, st, m, existing, a, now);
      r.effect == Managers.Adjusted(false, false, Some(Managers.NewSet(spec, st, m))) && r.status == st
  {
    hide Scaling.ScaleOut, Scaling.ScaleIn, Upgrading.GracefulUpgrade;
  }

  /** Where a reconcile of a rollout may start. */
  ghost predicate Between(st: Status, m: Member) {
    && WellFormed(st) && st.Of(m).sts.Some? && !Verification.UpToDate(st.Of(m).sts)
    && (st.Of(m).phase == Upgrading ==> st.Of(m).Stored(UpgradeType) == Some(Ongoing))
  }

  /** What a manager may do then: wait, or upgrade in phase Upgrading, or write the set as built
      in any other. */
  ghost predicate WritesByPhase(e: Event, st: Status, m: Member, effect: Managers.Effect)
    requires e.spec.Of(m).Some?
  {
    effect == Managers.NoEffect
    || (if st.Of(m).phase == Upgrading then effect.Adjusted? && effect.upgraded
        else effect == Managers.Adjusted(false, false, Some(Managers.NewSet(e.spec, st, m))))
  }

  lemma {:induction false} ManagerInRollout(e: Event, st: Status, m: Member)
    requires InRollout(e, st, m) && Between(st, m)
    ensures var r := Managers.Sync(e.spec, st, m, e.answers.Manager(m), e.now);
      && WritesByPhase(e, st, m, r.effect)
      && (UpgradeError(r.effect) || r.status.Of(m) == st.Of(m))
      && (st.Of(m).phase != Upgrading ==> r.status == st)
  {
    hide Managers.Adjust, Managers.NewSet, SyncEntries.Stored, Conditions.Find, WellFormed;
    var a := e.answers.Manager(m);
    PartitionIsReset(e.spec, st, m, a.sts.existing, a, e.now);
    if st.Of(m).phase == Upgrading {
      UpgradeKeepsCourse(e.spec, st, m, a.sts.existing, a, e.now);
    } else {
      PlainWriteKeepsStatus(e.spec, st, m, a.sts.existing, a, e.now);
    }
  }

  lemma {:induction false} ConditionSyncKeeps(spec: Spec, st: Status, a: Answers, now: int, m: Member)
    ensures var v := Verification.ConditionSync(spec, st, a.masterCheck, a.executorCheck, now);
      && v.status.Of(m).phase == st.Of(m).phase && v.status.Of(m).syncTypes == st.Of(m).syncTypes
      && (v.status.Of(m).sts == st.Of(m).sts || (a.Check(m).sts.Some? && v.status.Of(m).sts == a.Check(m).sts))
      && (Conditions.UniqueKinds(st.conditions) ==> Conditions.UniqueKinds(v.status.conditions))
      && (st.IsTrue(Conditions.SyncChecked(m)) ==> v.status.IsTrue(Conditions.SyncChecked(m)))
  {
    hide Verification.Verify, Verification.Apply, Conditions.Find, Conditions.UniqueKinds;
    var v := Verification.Verify(spec, st, Master, a.masterCheck, now);
    var w := Verification.Verify(spec, v.status, Executor, a.executorCheck, now);
    Verification.VerifyKeeps(spec, st, Master, a.masterCheck, now);
    Verification.VerifyKeeps(spec, v.status, Executor, a.executorCheck, now);
    Verification.ApplyMakesTrue(w.status, now);
  }

  lemma {:induction false} InRolloutReadsFailures(e: Event, a: Status, b: Status, m: Member)
    requires InRollout(e, a, m) && b.Of(m).failureMembers == a.Of(m).failureMembers
    ensures InRollout(e, b, m)
  {
    assert DesiredReplicas(e.spec, b, m) == DesiredReplicas(e.spec, a, m);
  }

  lemma {:induction false} InRolloutHasSpec(e: Event, st: Status, m: Member)
    requires InRollout(e, st, m)
    ensures e.spec.Of(m).Some? && !Verification.UpToDate(e.answers.Check(m).sts)
  {
  }

  lemma {:induction false} BetweenReads(a: Status, b: Status, m: Member)
    requires Between(a, m) && b.Of(m) == a.Of(m) && WellFormed(b)
    ensures Between(b, m)
  {
  }

  lemma {:induction false} WritesRead(e: Event, a: Status, b: Status, m: Member, effect: Managers.Effect)
    requires e.spec.Of(m).Some? && WritesByPhase(e, b, m, effect) && b.Of(m) == a.Of(m)
    ensures WritesByPhase(e, a, m, effect)
  {
  }

  /** The managers of one pass: the member's course is kept unless its upgrade ran into an error. */
  lemma {:induction false} ManagersInRollout(st: Status, e: Event, m: Member)
    requires InRollout(e, st, m) && Between(st, m)
    ensures var r := Managers.Sync(e.spec, st, Master, e.answers.masterManager, e.now);
      var x := Managers.Sync(e.spec, r.status, Executor, e.answers.executorManager, e.now);
      var effect := if m.Master? then r.effect else x.effect;
      && WellFormed(r.status) && WellFormed(x.status) && WritesByPhase(e, st, m, effect)
      && (m.Executor? ==> r.status.Of(m) == st.Of(m))
      && (m.Master? && !UpgradeError(effect) ==> r.status.Of(m) == st.Of(m))
      && (!UpgradeError(effect) ==> x.status.Of(m) == st.Of(m))
      && (st.Of(m).phase != Upgrading && st.IsTrue(Conditions.SyncChecked(m)) ==>
            r.status.IsTrue(Conditions.SyncChecked(m)) && x.status.IsTrue(Conditions.SyncChecked(m)))
  {
    hide Managers.Sync, Conditions.Find, SyncEntries.Stored, InRollout, WritesByPhase, Between, WellFormed;
    var r := Managers.Sync(e.spec, st, Master, e.answers.masterManager, e.now);
    var x := Managers.Sync(e.spec, r.status, Executor, e.answers.executorManager, e.now);
    BetweenIsWellFormed(st, m);
    InRolloutHasSpec(e, st, m);
    Managers.SyncIsGuarded(e.spec, st, Master, e.answers.masterManager, e.now);
    Managers.SyncIsGuarded(e.spec, r.status, Executor, e.answers.executorManager, e.now);
    if m.Master? {
      ManagerInRollout(e, st, m);
    } else {
      BetweenReads(st, r.status, m);
      InRolloutReadsFailures(e, st, r.status, m);
      ManagerInRollout(e, r.status, m);
      WritesRead(e, st, r.status, m, x.effect);
    }
  }

  lemma {:induction false} BetweenIsWellFormed(st: Status, m: Member)
    requires Between(st, m)
    ensures WellFormed(st) && st.Of(m).sts.Some? && !Verification.UpToDate(st.Of(m).sts)
  {
  }

  lemma {:induction false} PassInRollout(st: Status, e: Event, m: Member)
    requires Ran(st, e) && InRollout(e, st, m) && Between(st, m)
    ensures var p := PassAt(st, e);
      && WritesByPhase(e, st, m, p.Effect(m)) && p.status.clusterPhase == st.clusterPhase
      && (UpgradeError(p.Effect(m)) || (WellFormed(p.status) && KeepsCourse(st, p.status, m)))
      && (st.Of(m).phase != Upgrading && st.IsTrue(Conditions.SyncChecked(m)) ==>
            p.status.IsTrue(Conditions.SyncChecked(m)))
  {
    hide Managers.Sync, Verification.ConditionSync, Conditions.Find, SyncEntries.Stored, InRollout, WritesByPhase,
      Between,
      SyncEntries.UniqueNames, Conditions.UniqueKinds, Verification.UpToDate;
    var r := Managers.Sync(e.spec, st, Master, e.answers.masterManager, e.now);
    var x := Managers.Sync(e.spec, r.status, Executor, e.answers.executorManager, e.now);
    BetweenIsWellFormed(st, m);
    InRolloutHasSpec(e, st, m);
    NoEffectIsAllowed(e, st, m);
    ManagersInRollout(st, e, m);
    ControlGate(e.spec, st, e.answers, e.now, m);
    ConditionSyncKeeps(e.spec, x.status, e.answers, e.now, Master);
    ConditionSyncKeeps(e.spec, x.status, e.answers, e.now, Executor);
  }

  lemma {:induction false} NoEffectIsAllowed(e: Event, st: Status, m: Member)
    requires e.spec.Of(m).Some?
    ensures WritesByPhase(e, st, m, Managers.NoEffect)
  {
  }

  // ----- one reconcile -----

  /** Deriving the phase while only the upgrade is pending and the set is between revisions: the
      entry turns Unknown exactly if the gate is open and the set cannot be read. */
  lemma {:induction false} DerivedInRollout(spec: Spec, t: Status, m: Member, a: PhaseSync.Answers, after: Status)
    requires WellFormed(t) && PhaseProperties.PendingOf(t, m) == {UpgradeType} && !PhaseSync.Shortcut(spec, m)
    requires t.Of(m).Stored(UpgradeType) == Some(if t.Of(m).phase == Upgrading then Ongoing else Unknown)
    requires t.Of(m).phase == Upgrading || t.Of(m).phase == UnknownPhase
    requires a.getSts.Some? ==> PhaseSync.IsUpgrading(a.getSts.value)
    requires PhaseSync.SyncPhase(spec, t, m, a) == Some(after)
    ensures WellFormed(after) && PhaseProperties.PendingOf(after, m) == {UpgradeType}
    ensures after.Of(m).sts == t.Of(m).sts && after.conditions == t.conditions
    ensures var lost := t.IsTrue(Conditions.SyncChecked(m)) && a.getSts.None?;
      && after.Of(m).phase == (if lost then UnknownPhase else t.Of(m).phase)
      && after.Of(m).Stored(UpgradeType) == (if lost then Some(Unknown) else t.Of(m).Stored(UpgradeType))
  {
    hide PhaseSync.PhaseFor, SyncEntries.FindPos, SyncEntries.Pending, SyncEntries.UniqueNames, Conditions.Find,
      Conditions.UniqueKinds;
    NoneButUpgrade(t, m);
    PhaseForOnly(t, m, UpgradeType);
    SyncEntries.SetStatusPending(t.Of(m).syncTypes, UpgradeType, Unknown);
    PhaseForOnly(Mark(t, m, UpgradeType, Unknown), m, UpgradeType);
  }

  lemma {:induction false} NoneButUpgrade(t: Status, m: Member)
    requires WellFormed(t) && PhaseProperties.PendingOf(t, m) == {UpgradeType}
    ensures forall n :: t.Of(m).IsPending(n) <==> n == UpgradeType
  {
    forall n ensures t.Of(m).IsPending(n) <==> n == UpgradeType {
      PhaseProperties.PendingIffIsPending(t, m, n);
    }
  }

  lemma {:induction false} OnTheWay(st: Status, m: Member)
    requires Rolling(st, m) || LostTrack(st, m)
    ensures Between(st, m) && st.clusterPhase != ClusterUnset
  {
  }

  /** What a pass leaves when only the upgrade is pending, and the set is between revisions. */
  ghost predicate OnCourse(t: Status, m: Member) {
    && WellFormed(t) && t.clusterPhase != ClusterUnset
    && PhaseProperties.PendingOf(t, m) == {UpgradeType}
    && (t.Of(m).phase == Upgrading || t.Of(m).phase == UnknownPhase)
    && t.Of(m).Stored(UpgradeType) == Some(if t.Of(m).phase == Upgrading then Ongoing else Unknown)
    && t.Of(m).sts.Some? && !Verification.UpToDate(t.Of(m).sts)
  }

  /** Deriving from there. */
  lemma {:induction false} CourseDerives(st: Status, e: Event, m: Member)
    requires Ran(st, e) && Stores(e.spec, st, e.answers, e.now) && Watched(e, m) && OnCourse(PassAt(st, e).status, m)
    requires e.answers.Phase(m).getSts.Some? ==> PhaseSync.IsUpgrading(e.answers.Phase(m).getSts.value)
    ensures var t := PassAt(st, e).status;
      var lost := t.IsTrue(Conditions.SyncChecked(m)) && e.answers.Phase(m).getSts.None?;
      && (t.Of(m).phase == Upgrading && !lost ==> Rolling(Step(st, e), m))
      && (lost || (t.Of(m).phase == UnknownPhase && t.IsTrue(Conditions.SyncChecked(m))) ==> LostTrack(Step(st, e), m))
  {
    hide Control, PhaseSync.SyncPhase, SyncEntries.Pending, SyncEntries.Stored, SyncEntries.UniqueNames,
      Conditions.UniqueKinds, Conditions.Find, Verification.UpToDate;
    var t, a, spec := PassAt(st, e).status, e.answers, e.spec;
    var s1 := PhaseSync.SyncPhase(spec, t, Master, a.masterPhase).value;
    var s2 := PhaseSync.SyncPhase(spec, s1, Executor, a.executorPhase).value;
    RunningSoundness.PhaseIsLocal(spec, t, Master, a.masterPhase, s1);
    RunningSoundness.PhaseIsLocal(spec, s1, Executor, a.executorPhase, s2);
    DerivedInRollout(spec, if m.Master? then t else s1, m, a.Phase(m), if m.Master? then s1 else s2);
  }

  /** Deriving after a pass that kept the course. */
  lemma {:induction false} StepDerives(st: Status, e: Event, m: Member)
    requires (Rolling(st, m) || LostTrack(st, m)) && InRollout(e, st, m)
    requires Ran(st, e) && Stores(e.spec, st, e.answers, e.now)
    requires var t := PassAt(st, e).status;
      WellFormed(t) && KeepsCourse(st, t, m) && t.clusterPhase == st.clusterPhase
    requires LostTrack(st, m) ==> PassAt(st, e).status.IsTrue(Conditions.SyncChecked(m))
    ensures if Loses(st, e, m) || LostTrack(st, m) then LostTrack(Step(st, e), m) else Rolling(Step(st, e), m)
  {
    hide Control, PhaseSync.SyncClusterPhase, SyncEntries.Pending, SyncEntries.Stored, SyncEntries.UniqueNames,
      Conditions.UniqueKinds, Conditions.Find, Verification.UpToDate;
    CourseDerives(st, e, m);
  }

  /** One reconcile of a rollout: its write goes by the phase; after it the rollout is on its way,
      or ended in an upgrade error, or the upgrade is lost track of. */
  lemma {:induction false} ReconcileInRollout(st: Status, e: Event, m: Member)
    requires (Rolling(st, m) || LostTrack(st, m)) && InRollout(e, st, m)
    ensures WritesByPhase(e, st, m, EffectAt(st, e, m))
    ensures LostTrack(st, m) || Loses(st, e, m) ==> LostTrack(Step(st, e), m)
    ensures Rolling(st, m) && !Loses(st, e, m) ==> Rolling(Step(st, e), m) || FailedUpgrade(Step(st, e), m)
  {
    hide Control, PhaseSync.SyncClusterPhase, FailedUpgrade, InRollout, KeepsCourse, SyncEntries.Pending,
      SyncEntries.Stored,
      Conditions.Find, Between, SyncEntries.UniqueNames, Conditions.UniqueKinds, Verification.UpToDate;
    InRolloutHasSpec(e, st, m);
    OnTheWay(st, m);
    NoEffectIsAllowed(e, st, m);
    if Ran(st, e) {
      PassInRollout(st, e, m);
      if Stores(e.spec, st, e.answers, e.now) {
        if UpgradeError(EffectAt(st, e, m)) {
          UpgradeErrorEntersTrace(st, e, m);
          UpgradeErrorIsNoLoss(st, e, m);
        } else {
          StepDerives(st, e, m);
        }
      }
    }
  }

  lemma {:induction false} UpgradeErrorIsNoLoss(st: Status, e: Event, m: Member)
    requires Ran(st, e) && Stores(e.spec, st, e.answers, e.now) && UpgradeError(EffectAt(st, e, m))
    ensures !Loses(st, e, m)
  {
    hide Managers.Sync, PhaseSync.SyncClusterPhase, Conditions.Find, SyncEntries.Stored, Verification.ConditionSync;
    var r := Managers.Sync(e.spec, st, Master, e.answers.masterManager, e.now);
    UpgradeErrorIsMarked(e.spec, if m.Master? then st else r.status, m, e.answers.Manager(m), e.now);
  }

  // ----- whole runs -----

  ghost predicate LostBefore(st: Status, events: seq<Event>, m: Member, i: nat)
    requires i <= |events|
  {
    exists j | 0 <= j < i :: Loses(Before(st, events, j), events[j], m)
  }

  ghost predicate Stage(st: Status, events: seq<Event>, m: Member, i: nat)
    requires i <= |events|
  {
    var s := Before(st, events, i);
    && s.Of(m).failureMembers == st.Of(m).failureMembers
    && if LostBefore(st, events, m, i) then LostTrack(s, m) else Rolling(s, m) || FailedUpgrade(s, m)
  }

  lemma {:induction false} FailedUpgradeInRollout(st: Status, e: Event, m: Member)
    requires FailedUpgrade(st, m) && InRollout(e, st, m)
    ensures FailedUpgrade(Step(st, e), m) && EffectAt(st, e, m) == Managers.NoEffect && !Loses(st, e, m)
  {
    hide PhaseSync.SyncClusterPhase, Control, SyncEntries.Stored, Conditions.Find;
    StuckStep(st, e, m);
    if Ran(st, e) { ControlKeepsTrace(e.spec, st, e.answers, e.now, m); }
  }

  lemma {:induction false} StageIsKept(st: Status, events: seq<Event>, m: Member, i: nat)
    requires Rolling(st, m) && i <= |events|
    requires forall k | 0 <= k < |events| :: InRollout(events[k], st, m)
    ensures Stage(st, events, m, i)
  {
    hide Before, Step, Rolling, LostTrack, FailedUpgrade, Loses, InRollout, WritesByPhase;
    StartsAt(st, events);
    if i > 0 {
      StageIsKept(st, events, m, i - 1);
      var s, e := Before(st, events, i - 1), events[i - 1];
      BeforeNext(st, events, i - 1);
      InRolloutReadsFailures(e, st, s, m);
      StepKeepsFailures(s, e, m);
      if Rolling(s, m) || LostTrack(s, m) { ReconcileInRollout(s, e, m); } else { FailedUpgradeInRollout(s, e, m); }
      if Loses(s, e, m) { assert LostBefore(st, events, m, i); }
      OneStage(s, m);
    }
  }

  lemma {:induction false} OneStage(s: Status, m: Member)
    ensures !(Rolling(s, m) && LostTrack(s, m)) && !(FailedUpgrade(s, m) && LostTrack(s, m))
  {
  }

  /** In a run of rollout reconciles a write of the member's set is gracefulUpgrade's as long as no
      reconcile has lost track of the upgrade; from then on every write puts the partition back to
      the replica count, and no reconcile of the run lowers it again. */
  lemma {:induction false} WritesInRollout(st: Status, events: seq<Event>, m: Member, i: nat)
    requires Rolling(st, m) && i < |events|
    requires forall k | 0 <= k < |events| :: InRollout(events[k], st, m)
    requires EffectAt(Before(st, events, i), events[i], m).Adjusted?
    ensures var e := EffectAt(Before(st, events, i), events[i], m);
      && (e.upgraded <==> !LostBefore(st, events, m, i))
      && (LostBefore(st, events, m, i) ==>
            e.written.Some? && e.written.value.strategy.partition == Some(events[i].spec.Of(m).value.replicas))
  {
    hide Before, LostBefore, Loses, InRollout, FailedUpgrade, SyncEntries.Pending, SyncEntries.Stored,
      Conditions.Find;
    var s, e := Before(st, events, i), events[i];
    StageIsKept(st, events, m, i);
    InRolloutReadsFailures(e, st, s, m);
    InRolloutRolls(e, s, m);
    OneStage(s, m);
    if Rolling(s, m) || LostTrack(s, m) { ReconcileInRollout(s, e, m); } else { FailedUpgradeInRollout(s, e, m); }
  }

  lemma {:induction false} InRolloutRolls(e: Event, st: Status, m: Member)
    requires InRollout(e, st, m)
    ensures e.spec.Of(m).Some? && Managers.NewSet(e.spec, st, m).strategy.partition == Some(e.spec.Of(m).value.replicas)
  {
  }
}
