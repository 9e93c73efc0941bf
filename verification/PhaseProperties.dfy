/** What one SyncPhase call, and a settled cluster over many calls, do to the sync entries. */
module PhaseProperties {
  import opened Api
  import opened Clusters
  import opened PhaseSync
  import SyncEntries
  import Conditions

  predicate Current(pod: Option<string>, sts: Option<StsStatus>) {
    pod.Some? && sts.Some? && pod.value == sts.value.updateRevision
  }

  /** The verdict in terms of the first pod that is not current. */
  lemma {:induction false} JudgePodsMeaning(pods: seq<Option<string>>, sts: Option<StsStatus>)
    ensures JudgePods(pods, sts) == AllCurrent <==> forall i | 0 <= i < |pods| :: Current(pods[i], sts)
    ensures forall i | 0 <= i < |pods| ::
      !Current(pods[i], sts) && (forall j | 0 <= j < i :: Current(pods[j], sts)) ==>
        JudgePods(pods, sts) ==
          if pods[i].None? then Unlabelled else if sts.None? then NilSnapshot else Stale
  {
    if pods != [] {
      JudgePodsMeaning(pods[1..], sts);
      assert forall i | 1 <= i < |pods| :: pods[i] == pods[1..][i - 1];
    }
  }

  ghost function PendingOf(st: Status, m: Member): set<SyncName> {
    SyncEntries.Pending(st.Of(m).syncTypes)
  }

  lemma {:induction false} PendingIffIsPending(st: Status, m: Member, name: SyncName)
    requires WellFormed(st)
    ensures name in PendingOf(st, m) <==> st.Of(m).IsPending(name)
  {
    SyncEntries.PendingIsStored(st.Of(m).syncTypes, name);
  }

  /** The step taken, if any, concerns one entry and touches nothing else of the member but it. */
  lemma {:induction false} FromClusterChangesOneEntry(spec: Spec, st: Status, m: Member, a: Answers)
    ensures FromCluster(spec, st, m, a).Changed? ==>
      exists name, s :: FromCluster(spec, st, m, a).status == Mark(st, m, name, s) && st.Of(m).IsPending(name)
  {
    var r := FromCluster(spec, st, m, a);
    if r.Changed? {
      var create, scale := CreateStep(spec, st, m), ScaleStep(spec, st, m);
      if create.Changed? {
        assert r.status == Mark(st, m, CreateType, Completed);
      } else if scale.Changed? {
        var name := if st.Of(m).IsPending(ScaleOutType) then ScaleOutType else ScaleInType;
        assert r.status == Mark(st, m, name, Completed);
      }
    }
  }

  /** Equal revisions, and every listed pod at the snapshot's update revision. */
  ghost predicate SawAllCurrent(st: Status, m: Member, a: Answers) {
    && a.getSts.Some? && a.getSts.value.currentRevision == a.getSts.value.updateRevision
    && !IsUpgrading(a.getSts.value)
    && a.selectorOk && a.podRevisions.Some?
    && forall i | 0 <= i < |a.podRevisions.value| :: Current(a.podRevisions.value[i], st.Of(m).sts)
  }

  lemma {:induction false} UpgradeStepCompletes(st: Status, m: Member, a: Answers)
    requires st.Of(m).IsPending(UpgradeType)
    ensures var r := UpgradeStep(st, m, a);
      && (SawAllCurrent(st, m, a) ==> r.Changed?)
      && (r.Changed? ==> (r.status.Of(m).Stored(UpgradeType) == Some(Completed) <==> SawAllCurrent(st, m, a)))
  {
    hide JudgePods, SyncEntries.Stored;
    if a.podRevisions.Some? { JudgePodsMeaning(a.podRevisions.value, st.Of(m).sts); }
  }

  /** Once the set itself is done, the first listed pod that is not current decides: without a
      revision label the upgrade has failed, with another revision nothing changes. */
  lemma {:induction false} FirstOddPodDecides(st: Status, m: Member, a: Answers, i: nat)
    requires st.Of(m).IsPending(UpgradeType) && st.Of(m).sts.Some?
    requires a.getSts.Some? && !IsUpgrading(a.getSts.value) && a.selectorOk && a.podRevisions.Some?
    requires i < |a.podRevisions.value| && !Current(a.podRevisions.value[i], st.Of(m).sts)
    requires forall j | 0 <= j < i :: Current(a.podRevisions.value[j], st.Of(m).sts)
    ensures UpgradeStep(st, m, a) ==
      if a.podRevisions.value[i].None? then Changed(Mark(st, m, UpgradeType, Failed)) else Unchanged
  {
    hide JudgePods, SyncEntries.Stored;
    JudgePodsMeaning(a.podRevisions.value, st.Of(m).sts);
  }

  lemma {:induction false} OtherStepsKeepUpgrade(spec: Spec, st: Status, m: Member)
    ensures var r := CreateStep(spec, st, m);
      r.Changed? ==> r.status.Of(m).Stored(UpgradeType) == st.Of(m).Stored(UpgradeType)
    ensures var r := ScaleStep(spec, st, m);
      r.Changed? ==> r.status.Of(m).Stored(UpgradeType) == st.Of(m).Stored(UpgradeType)
  {
    hide SyncEntries.Stored;
  }

  /** A pending upgrade is Completed by a call exactly when that call got as far as the upgrade,
      saw the StatefulSet's revisions equal and every listed pod at the snapshot's revision. */
  lemma {:induction false} UpgradeCompletion(spec: Spec, st: Status, m: Member, a: Answers, after: Status)
    requires !Shortcut(spec, m) && st.Of(m).IsPending(UpgradeType)
    requires SyncPhase(spec, st, m, a) == Some(after)
    ensures after.Of(m).Stored(UpgradeType) == Some(Completed) <==>
      && st.IsTrue(Conditions.SyncChecked(m))
      && CreateStep(spec, st, m) == Unchanged && ScaleStep(spec, st, m) == Unchanged
      && SawAllCurrent(st, m, a)
  {
    hide CreateStep, ScaleStep, UpgradeStep, SawAllCurrent, SyncEntries.Stored, PhaseFor, Shortcut, Conditions.Find;
    UpgradeStepCompletes(st, m, a);
    OtherStepsKeepUpgrade(spec, st, m);
  }

  // ----- a settled cluster -----

  ghost predicate SettledAnswers(st: Status, m: Member, a: Answers) {
    && a.getSts.Some? && !IsUpgrading(a.getSts.value) && a.selectorOk && a.podRevisions.Some?
    && forall i | 0 <= i < |a.podRevisions.value| :: Current(a.podRevisions.value[i], st.Of(m).sts)
  }

  ghost predicate SettledSnapshot(spec: Spec, st: Status, m: Member) {
    && spec.Of(m).Some? && st.Of(m).sts.Some?
    && DesiredReplicas(spec, st, m) == st.Of(m).CurrentReplicas() == st.Of(m).ReadyReplicas()
  }

  /** The entry that a call completes when nothing stands in its way. */
  ghost function NextDone(st: Status, m: Member): SyncName {
    if st.Of(m).IsPending(CreateType) then CreateType
    else if st.Of(m).IsPending(ScaleOutType) then ScaleOutType
    else if st.Of(m).IsPending(ScaleInType) then ScaleInType
    else UpgradeType
  }

  lemma {:induction false} NextDoneIsPending(st: Status, m: Member)
    requires WellFormed(st) && PendingOf(st, m) <= OPERATOR_NAMES
    ensures PendingOf(st, m) != {} <==> st.Of(m).IsPending(NextDone(st, m))
    ensures st.Of(m).IsPending(NextDone(st, m)) <==> NextDone(st, m) in PendingOf(st, m)
  {
    PendingIffIsPending(st, m, NextDone(st, m));
    if PendingOf(st, m) != {} {
      var name :| name in PendingOf(st, m);
      PendingIffIsPending(st, m, name);
      assert name in OPERATOR_NAMES;
    }
  }

  lemma {:induction false} SettledStep(spec: Spec, st: Status, m: Member, a: Answers)
    requires WellFormed(st) && PendingOf(st, m) <= OPERATOR_NAMES
    requires SettledSnapshot(spec, st, m) && SettledAnswers(st, m, a)
    ensures FromCluster(spec, st, m, a) ==
      if PendingOf(st, m) == {} then Unchanged else Changed(Mark(st, m, NextDone(st, m), Completed))
  {
    hide JudgePods, SyncEntries.Stored, SyncEntries.SetStatus, SyncEntries.Pending, WellFormed;
    JudgePodsMeaning(a.podRevisions.value, st.Of(m).sts);
    NextDoneIsPending(st, m);
  }

  /** The status after a call that completed one entry. */
  function CompletedOne(st: Status, m: Member, name: SyncName): (s: Status)
    ensures s.Of(m).phase == PhaseFor(s.Of(m).syncTypes)
  {
    var s := Mark(st, m, name, Completed);
    SetPhase(s, m, PhaseFor(s.Of(m).syncTypes))
  }

  /** In a settled cluster a call completes exactly one pending entry, and shows Running exactly
      when that was the last; with nothing pending it changes nothing at all. */
  lemma {:induction false} SettledCall(spec: Spec, st: Status, m: Member, a: Answers)
    requires WellFormed(st) && PendingOf(st, m) <= OPERATOR_NAMES
    requires SettledSnapshot(spec, st, m) && SettledAnswers(st, m, a)
    requires st.IsTrue(Conditions.SyncChecked(m))
    ensures PendingOf(st, m) == {} ==> SyncPhase(spec, st, m, a) == Some(st)
    ensures PendingOf(st, m) != {} ==>
      var done := NextDone(st, m);
      var after := CompletedOne(st, m, done);
      && SyncPhase(spec, st, m, a) == Some(after)
      && done in PendingOf(st, m) && PendingOf(after, m) == PendingOf(st, m) - {done}
      && (after.Of(m).phase == Running <==> PendingOf(after, m) == {})
  {
    SettledStep(spec, st, m, a);
    NextDoneIsPending(st, m);
    var done := NextDone(st, m);
    SyncEntries.SetStatusPending(st.Of(m).syncTypes, done, Completed);
    SyncEntries.CompletedMeansNothingPending(CompletedOne(st, m, done).Of(m).syncTypes);
  }

  /** `k` calls in a row, each with its own answers. */
  ghost function Calls(spec: Spec, st: Status, m: Member, a: nat -> Answers, k: nat): Option<Status> {
    if k == 0 then Some(st)
    else
      var before := Calls(spec, st, m, a, k - 1);
      if before.None? then None else SyncPhase(spec, before.value, m, a(k - 1))
  }

  /** What the calls on a settled cluster keep. */
  ghost predicate Settled(spec: Spec, start: Status, st: Status, m: Member) {
    && WellFormed(st) && SettledSnapshot(spec, st, m) && st.Of(m).sts == start.Of(m).sts
    && st.IsTrue(Conditions.SyncChecked(m))
    && PendingOf(st, m) <= PendingOf(start, m) && PendingOf(st, m) <= OPERATOR_NAMES
  }

  lemma {:induction false} SettledIsKept(spec: Spec, start: Status, st: Status, m: Member, a: Answers)
    requires Settled(spec, start, st, m) && SettledAnswers(start, m, a)
    requires PendingOf(st, m) != {}
    ensures Settled(spec, start, CompletedOne(st, m, NextDone(st, m)), m)
  {
    hide SyncPhase, PhaseFor, NextDone, SyncEntries.Pending, SyncEntries.Stored;
    SettledCall(spec, st, m, a);
  }

  lemma {:induction false} SettledCallAgain(spec: Spec, start: Status, st: Status, m: Member, a: Answers)
    requires Settled(spec, start, st, m) && SettledAnswers(start, m, a)
    ensures var after := SyncPhase(spec, st, m, a);
      && (PendingOf(st, m) == {} ==> after == Some(st))
      && (PendingOf(st, m) != {} ==>
            && after == Some(CompletedOne(st, m, NextDone(st, m)))
            && |PendingOf(after.value, m)| == |PendingOf(st, m)| - 1
            && (after.value.Of(m).phase == Running <==> PendingOf(after.value, m) == {}))
  {
    hide SyncPhase, PhaseFor, NextDone, CompletedOne, SyncEntries.Pending, SyncEntries.Stored;
    SettledCall(spec, st, m, a);
  }

  /** n pending entries take exactly n calls: before that the phase is not Running, from then
      on it is, and nothing is pending any more. */
  lemma {:induction false} SettledCalls(spec: Spec, st: Status, m: Member, a: nat -> Answers, k: nat)
    requires Settled(spec, st, st, m)
    requires forall i: nat :: SettledAnswers(st, m, a(i))
    ensures var n := |PendingOf(st, m)|;
      var r := Calls(spec, st, m, a, k);
      && r.Some? && Settled(spec, st, r.value, m)
      && |PendingOf(r.value, m)| == (if k < n then n - k else 0)
      && (k >= 1 && n >= 1 ==> (r.value.Of(m).phase == Running <==> k >= n))
      && (n == 0 ==> r.value == st)
  {
    hide SyncPhase, Settled, PendingOf, NextDone, PhaseFor;
    if k > 0 {
      SettledCalls(spec, st, m, a, k - 1);
      var before := Calls(spec, st, m, a, k - 1).value;
      assert SettledAnswers(st, m, a(k - 1));
      SettledCallAgain(spec, st, before, m, a(k - 1));
      if PendingOf(before, m) != {} {
        SettledIsKept(spec, st, before, m, a(k - 1));
      }
    }
  }

  /** The early return as a trap: settled, checked, nothing pending, and a phase other than
      Running. No number of calls leads out of it. */
  lemma {:induction false} NothingPendingKeepsPhase(spec: Spec, st: Status, m: Member, a: nat -> Answers, k: nat)
    requires Settled(spec, st, st, m) && PendingOf(st, m) == {}
    requires forall i: nat :: SettledAnswers(st, m, a(i))
    ensures Calls(spec, st, m, a, k) == Some(st)
  {
    SettledCalls(spec, st, m, a, k);
  }
}
