/** Condition Sync: the checks that a reconcile runs after the managers, in order, and what it
    means that all of them passed. */
module Verification {
  import opened Api
  import opened Clusters
  import opened Conditions
  import opened Members
  import SyncEntries

  /** `Panics` is the index error on an endpoints list that is empty but not nil. */
  datatype Report = Reported(infos: seq<MemberInfo>) | ReportFailed | ReportPanics

  datatype Answers = Answers(sts: Option<StsStatus>, leader: Option<string>, report: Report)

  datatype Verdict = Verdict(status: Status, outcome: Outcome)

  function Other(m: Member): Member { if m.Master? then Executor else Master }

  function Id(spec: Spec, m: Member): Identity { Identity(spec.name, spec.namespace, m) }

  // ----- specification -----

  predicate UpToDate(sts: Option<StsStatus>) {
    sts.Some? && sts.value.currentRevision == sts.value.updateRevision
  }

  predicate VersionVerified(st: Status, m: Member) {
    st.Of(m).Stored(UpgradeType) == Some(Ongoing) || UpToDate(st.Of(m).sts)
  }

  predicate ReplicasVerified(spec: Spec, st: Status, m: Member)
    requires m.Master? ==> spec.master.Some?
  {
    DesiredReplicas(spec, st, m) ==
      if UpToDate(st.Of(m).sts) then st.Of(m).CurrentReplicas()
      else st.Of(m).CurrentReplicas() + st.Of(m).UpdatedReplicas()
  }

  predicate ReadyVerified(spec: Spec, st: Status, m: Member)
    requires m.Master? ==> spec.master.Some?
  {
    DesiredReplicas(spec, st, m) == st.Of(m).ReadyReplicas()
  }

  predicate Skipped(spec: Spec, m: Member) {
    if m.Master? then spec.heterogeneous else spec.executor.None?
  }

  /** Without checking anything, five conditions are declared True. */
  function Skip(st: Status, m: Member, now: int): Status {
    var s := SetCondition(SetCondition(SetCondition(st, MemberVersionChecked(m), true, now),
                                       ReplicaChecked(m), true, now), ReadyChecked(m), true, now);
    SetCondition(SetCondition(s, if m.Master? then LeaderChecked else ExecutorPVCChecked, true, now),
                 InfoUpdatedChecked(m), true, now)
  }

  function SetMembers(spec: Spec, st: Status, m: Member, infos: seq<MemberInfo>): Status
    requires m.Master? ==> spec.master.Some?
  {
    var desired := DesiredReplicas(spec, st, m);
    st.With(m, st.Of(m).(members := OwnMembers(Id(spec, m), desired, infos),
                         peerMembers := PeerMembers(Id(spec, m), desired, infos)))
  }

  function VerifyMembers(spec: Spec, st: Status, m: Member, a: Answers, now: int): (v: Verdict)
    requires m.Master? ==> spec.master.Some?
    ensures v.status.Of(Other(m)) == st.Of(Other(m))
    ensures v.status.Of(m).sts == st.Of(m).sts
  {
    match a.report
    case ReportPanics => Verdict(st, Panic)
    case ReportFailed => Verdict(SetCondition(st, InfoUpdatedChecked(m), false, now), SyncStatusErr)
    case Reported(infos) =>
      var s := SetCondition(SetMembers(spec, st, m, infos), InfoUpdatedChecked(m), true, now);
      if DesiredReplicas(spec, s, m) == |s.Of(m).members|
      then Verdict(SetCondition(s, MembersChecked(m), true, now), Done)
      else if m.Master? then Verdict(s, SyncStatusErr)
      else Verdict(SetCondition(s, MembersChecked(m), false, now), SyncStatusErr)
  }

  function VerifyLeader(spec: Spec, st: Status, m: Member, a: Answers, now: int): (v: Verdict)
    requires m.Master? ==> spec.master.Some?
    ensures v.status.Of(Other(m)) == st.Of(Other(m))
    ensures v.status.Of(m).sts == st.Of(m).sts
  {
    match a.leader
    case None => Verdict(SetCondition(st, LeaderChecked, false, now), SyncStatusErr)
    case Some(l) => VerifyMembers(spec, SetCondition(st.(leader := l), LeaderChecked, true, now), m, a, now)
  }

  function VerifyReady(spec: Spec, st: Status, m: Member, a: Answers, now: int): (v: Verdict)
    requires m.Master? ==> spec.master.Some?
    ensures v.status.Of(Other(m)) == st.Of(Other(m))
    ensures v.status.Of(m).sts == st.Of(m).sts
  {
    var ok := ReadyVerified(spec, st, m);
    var s := SetCondition(st, ReadyChecked(m), ok, now);
    if ok then VerifyLeader(spec, s, m, a, now) else Verdict(s, NotReadyErr)
  }

  function VerifyReplicas(spec: Spec, st: Status, m: Member, a: Answers, now: int): (v: Verdict)
    ensures v.status.Of(Other(m)) == st.Of(Other(m))
    ensures v.status.Of(m).sts == st.Of(m).sts
  {
    if m.Master? && spec.master.None? then Verdict(st, Panic)
    else
      var ok := ReplicasVerified(spec, st, m);
      var s := SetCondition(st, ReplicaChecked(m), ok, now);
      if ok then VerifyReady(spec, s, m, a, now) else Verdict(s, NotReadyErr)
  }

  function VerifyVersion(spec: Spec, st: Status, m: Member, a: Answers, now: int): (v: Verdict)
    ensures v.status.Of(Other(m)) == st.Of(Other(m))
    ensures v.status.Of(m).sts == st.Of(m).sts
  {
    var ok := VersionVerified(st, m);
    var s := SetCondition(st, MemberVersionChecked(m), ok, now);
    if ok then VerifyReplicas(spec, s, m, a, now) else Verdict(s, NotReadyErr)
  }

  function Verify(spec: Spec, st: Status, m: Member, a: Answers, now: int): (v: Verdict)
    ensures v.status.Of(Other(m)) == st.Of(Other(m))
    ensures v.status.Of(m).sts == if Skipped(spec, m) || a.sts.None? then st.Of(m).sts else a.sts
  {
    if Skipped(spec, m) then Verdict(Skip(st, m, now), Done)
    else if a.sts.None? then Verdict(st, NotReadyErr)
    else
      var s := SetSts(st, m, a.sts.value);
      VerifyVersion(spec, if m.Executor? then SetCondition(s, ExecutorPVCChecked, true, now) else s, m, a, now)
  }

  function Apply(st: Status, now: int): Status {
    SetCondition(SetCondition(SetCondition(st, SyncChecked(Master), true, now),
                              SyncChecked(Executor), true, now), VersionChecked, true, now)
  }

  function ConditionSync(spec: Spec, st: Status, master: Answers, executor: Answers, now: int): Verdict {
    var v := Verify(spec, st, Master, master, now);
    if v.outcome != Done then v
    else
      var w := Verify(spec, v.status, Executor, executor, now);
      if w.outcome != Done then w else Verdict(Apply(w.status, now), Done)
  }

  // ----- the code -----

  method DeclareChecked(tc: Cluster, m: Member, now: int)
    modifies tc
    ensures tc.status == Skip(old(tc.status), m, now)
  {
    hide FindPos, Find, UniqueKinds, Set;
    tc.SetConditionStatus(MemberVersionChecked(m), true, now);
    tc.SetConditionStatus(ReplicaChecked(m), true, now);
    tc.SetConditionStatus(ReadyChecked(m), true, now);
    tc.SetConditionStatus(if m == Master then LeaderChecked else ExecutorPVCChecked, true, now);
    tc.SetConditionStatus(InfoUpdatedChecked(m), true, now);
  }

  method VerifyMember(tc: Cluster, m: Member, a: Answers, now: int) returns (outcome: Outcome)
    modifies tc
    ensures Verdict(tc.status, outcome) == Verify(tc.spec, old(tc.status), m, a, now)
  {
    hide VerifyReplicas, Skip, FindPos, Find, UniqueKinds, Set;
    if (if m == Master then tc.spec.heterogeneous else tc.spec.executor == None) {
      DeclareChecked(tc, m, now);
      return Done;
    }
    if a.sts == None { return NotReadyErr; }
    tc.status := SetSts(tc.status, m, a.sts.value);
    if m == Executor { tc.SetConditionStatus(ExecutorPVCChecked, true, now); }

    var sts := a.sts.value;
    var upToDate := sts.currentRevision == sts.updateRevision;
    if SyncEntries.GetStatus(tc.status.Of(m).syncTypes, UpgradeType) == Ongoing || upToDate {
      tc.SetConditionStatus(MemberVersionChecked(m), true, now);
    } else {
      tc.SetConditionStatus(MemberVersionChecked(m), false, now);
      return NotReadyErr;
    }

    outcome := VerifyScale(tc, m, a, now);
  }

  method VerifyScale(tc: Cluster, m: Member, a: Answers, now: int) returns (outcome: Outcome)
    requires tc.status.Of(m).sts.Some?
    modifies tc
    ensures Verdict(tc.status, outcome) == VerifyReplicas(tc.spec, old(tc.status), m, a, now)
  {
    hide VerifyLeader, FindPos, Find, UniqueKinds, Set;
    if m == Master && tc.spec.master == None { return Panic; }
    var sts := tc.status.Of(m).sts.value;
    var desired := DesiredReplicas(tc.spec, tc.status, m);
    var running := sts.currentReplicas;
    if sts.currentRevision != sts.updateRevision { running := running + sts.updatedReplicas; }
    if desired != running {
      tc.SetConditionStatus(ReplicaChecked(m), false, now);
      return NotReadyErr;
    }
    tc.SetConditionStatus(ReplicaChecked(m), true, now);
    if desired != sts.readyReplicas {
      tc.SetConditionStatus(ReadyChecked(m), false, now);
      return NotReadyErr;
    }
    tc.SetConditionStatus(ReadyChecked(m), true, now);
    outcome := VerifyByMaster(tc, m, a, now);
  }

  /** What is asked of tiflow-master: its leader, then its members. */
  method VerifyByMaster(tc: Cluster, m: Member, a: Answers, now: int) returns (outcome: Outcome)
    requires m.Master? ==> tc.spec.master.Some?
    modifies tc
    ensures Verdict(tc.status, outcome) == VerifyLeader(tc.spec, old(tc.status), m, a, now)
  {
    if a.leader == None {
      tc.SetConditionStatus(LeaderChecked, false, now);
      return SyncStatusErr;
    }
    tc.status := tc.status.(leader := a.leader.value);
    tc.SetConditionStatus(LeaderChecked, true, now);
    outcome := VerifyReport(tc, m, a, now);
  }

  method VerifyReport(tc: Cluster, m: Member, a: Answers, now: int) returns (outcome: Outcome)
    requires m.Master? ==> tc.spec.master.Some?
    modifies tc
    ensures Verdict(tc.status, outcome) == VerifyMembers(tc.spec, old(tc.status), m, a, now)
  {
    hide FindPos, Find, UniqueKinds, Set, OwnMembers, PeerMembers;
    if a.report.ReportPanics? { return Panic; }
    if a.report.ReportFailed? {
      tc.SetConditionStatus(InfoUpdatedChecked(m), false, now);
      return SyncStatusErr;
    }
    var desired := DesiredReplicas(tc.spec, tc.status, m);
    var members, peers := UpdateMembersInfo(Id(tc.spec, m), desired, a.report.infos);
    tc.status := tc.status.With(m, tc.status.Of(m).(members := members, peerMembers := peers));
    tc.SetConditionStatus(InfoUpdatedChecked(m), true, now);
    if desired == |members| {
      tc.SetConditionStatus(MembersChecked(m), true, now);
      return Done;
    }
    if m == Executor { tc.SetConditionStatus(MembersChecked(m), false, now); }
    return SyncStatusErr;
  }

  method Sync(tc: Cluster, master: Answers, executor: Answers, now: int) returns (outcome: Outcome)
    modifies tc
    ensures Verdict(tc.status, outcome) == ConditionSync(tc.spec, old(tc.status), master, executor, now)
  {
    outcome := VerifyMember(tc, Master, master, now);
    if outcome != Done { return; }
    outcome := VerifyMember(tc, Executor, executor, now);
    if outcome != Done { return; }
    tc.SetConditionStatus(SyncChecked(Master), true, now);
    tc.SetConditionStatus(SyncChecked(Executor), true, now);
    tc.SetConditionStatus(VersionChecked, true, now);
  }

  // ----- what verification keeps, and what its success means -----

  /** Verification writes no phase, no sync entry and, before Apply, no SyncChecked condition. */
  ghost predicate KeepsProtocol(st: Status, s: Status) {
    && s.clusterPhase == st.clusterPhase
    && (UniqueKinds(st.conditions) ==> UniqueKinds(s.conditions))
    && (forall m :: s.Of(m).phase == st.Of(m).phase && s.Of(m).syncTypes == st.Of(m).syncTypes
                 && s.Of(m).failureMembers == st.Of(m).failureMembers)
    && (forall m :: Find(s.conditions, SyncChecked(m)) == Find(st.conditions, SyncChecked(m)))
  }

  lemma {:induction false} KeepsTransitive(a: Status, b: Status, c: Status)
    requires KeepsProtocol(a, b) && KeepsProtocol(b, c)
    ensures KeepsProtocol(a, c)
  {
  }

  lemma {:induction false} SetConditionKeeps(st: Status, kind: Kind, value: bool, now: int)
    requires !kind.SyncChecked?
    ensures KeepsProtocol(st, SetCondition(st, kind, value, now))
  {
  }

  lemma {:induction false} VerifyMembersKeeps(spec: Spec, st: Status, m: Member, a: Answers, now: int)
    requires m.Master? ==> spec.master.Some?
    ensures KeepsProtocol(st, VerifyMembers(spec, st, m, a, now).status)
  {
    hide FindPos, UniqueKinds, Set, Find, OwnMembers, PeerMembers;
    if a.report.ReportFailed? {
      SetConditionKeeps(st, InfoUpdatedChecked(m), false, now);
    } else if a.report.Reported? {
      var s0 := SetMembers(spec, st, m, a.report.infos);
      var s := SetCondition(s0, InfoUpdatedChecked(m), true, now);
      assert KeepsProtocol(st, s0);
      SetConditionKeeps(s0, InfoUpdatedChecked(m), true, now);
      KeepsTransitive(st, s0, s);
      var ok := DesiredReplicas(spec, s, m) == |s.Of(m).members|;
      SetConditionKeeps(s, MembersChecked(m), ok, now);
      KeepsTransitive(st, s, SetCondition(s, MembersChecked(m), ok, now));
    }
  }

  lemma {:induction false} VerifyLeaderKeeps(spec: Spec, st: Status, m: Member, a: Answers, now: int)
    requires m.Master? ==> spec.master.Some?
    ensures KeepsProtocol(st, VerifyLeader(spec, st, m, a, now).status)
  {
    if a.leader.None? {
      SetConditionKeeps(st, LeaderChecked, false, now);
    } else {
      var s0 := st.(leader := a.leader.value);
      var s := SetCondition(s0, LeaderChecked, true, now);
      assert KeepsProtocol(st, s0);
      SetConditionKeeps(s0, LeaderChecked, true, now);
      KeepsTransitive(st, s0, s);
      VerifyMembersKeeps(spec, s, m, a, now);
      KeepsTransitive(st, s, VerifyLeader(spec, st, m, a, now).status);
    }
  }

  lemma {:induction false} VerifyVersionKeeps(spec: Spec, st: Status, m: Member, a: Answers, now: int)
    ensures KeepsProtocol(st, VerifyVersion(spec, st, m, a, now).status)
  {
    var final := VerifyVersion(spec, st, m, a, now).status;
    var s1 := SetCondition(st, MemberVersionChecked(m), VersionVerified(st, m), now);
    SetConditionKeeps(st, MemberVersionChecked(m), VersionVerified(st, m), now);
    if VersionVerified(st, m) && !(m.Master? && spec.master.None?) {
      var replicas := ReplicasVerified(spec, s1, m);
      var s2 := SetCondition(s1, ReplicaChecked(m), replicas, now);
      SetConditionKeeps(s1, ReplicaChecked(m), replicas, now);
      KeepsTransitive(st, s1, s2);
      if replicas {
        var ready := ReadyVerified(spec, s2, m);
        var s3 := SetCondition(s2, ReadyChecked(m), ready, now);
        SetConditionKeeps(s2, ReadyChecked(m), ready, now);
        KeepsTransitive(st, s2, s3);
        if ready {
          VerifyLeaderKeeps(spec, s3, m, a, now);
          KeepsTransitive(st, s3, final);
        }
      }
    }
  }

  lemma {:induction false} SkipKeeps(st: Status, m: Member, now: int)
    ensures KeepsProtocol(st, Skip(st, m, now))
    ensures OnlyBecameTrue(st.conditions, Skip(st, m, now).conditions)
  {
    var s1 := SetCondition(st, MemberVersionChecked(m), true, now);
    var s2 := SetCondition(s1, ReplicaChecked(m), true, now);
    var s3 := SetCondition(s2, ReadyChecked(m), true, now);
    var last := if m.Master? then LeaderChecked else ExecutorPVCChecked;
    var s4 := SetCondition(s3, last, true, now);
    Passed(st, MemberVersionChecked(m), m, now);
    Passed(s1, ReplicaChecked(m), m, now);
    Passed(s2, ReadyChecked(m), m, now);
    Passed(s3, last, m, now);
    Passed(s4, InfoUpdatedChecked(m), m, now);
    GoodTransitive(st, s1, s2, m);
    GoodTransitive(st, s2, s3, m);
    GoodTransitive(st, s3, s4, m);
    GoodTransitive(st, s4, Skip(st, m, now), m);
  }

  lemma {:induction false} VerifyKeeps(spec: Spec, st: Status, m: Member, a: Answers, now: int)
    ensures KeepsProtocol(st, Verify(spec, st, m, a, now).status)
  {
    if Skipped(spec, m) {
      SkipKeeps(st, m, now);
    } else if a.sts.Some? {
      var s0 := SetSts(st, m, a.sts.value);
      assert KeepsProtocol(st, s0);
      var s1 := if m.Executor? then SetCondition(s0, ExecutorPVCChecked, true, now) else s0;
      SetConditionKeeps(s0, ExecutorPVCChecked, true, now);
      KeepsTransitive(st, s0, s1);
      VerifyVersionKeeps(spec, s1, m, a, now);
      KeepsTransitive(st, s1, Verify(spec, st, m, a, now).status);
    }
  }

  // ----- success -----

  /** A member's snapshot shows the desired replicas, current and ready, and as many members as
      desired have registered. */
  ghost predicate Checked(spec: Spec, st: Status, m: Member) {
    && spec.Of(m).Some? && st.Of(m).sts.Some?
    && VersionVerified(st, m) && ReplicasVerified(spec, st, m) && ReadyVerified(spec, st, m)
    && |st.Of(m).members| == DesiredReplicas(spec, st, m)
  }

  ghost predicate MemberChecksTrue(conds: seq<Condition>, m: Member) {
    && IsTrue(conds, LeaderChecked) && (m.Executor? ==> IsTrue(conds, ExecutorPVCChecked))
    && IsTrue(conds, InfoUpdatedChecked(m)) && IsTrue(conds, MemberVersionChecked(m))
    && IsTrue(conds, ReplicaChecked(m)) && IsTrue(conds, ReadyChecked(m)) && IsTrue(conds, MembersChecked(m))
  }

  /** The way of a successful verification: conditions only become True, the snapshot stays. */
  ghost predicate Good(st: Status, s: Status, m: Member) {
    && KeepsProtocol(st, s) && OnlyBecameTrue(st.conditions, s.conditions)
    && s.Of(m).sts == st.Of(m).sts
  }

  lemma {:induction false} GoodTransitive(a: Status, b: Status, c: Status, m: Member)
    requires Good(a, b, m) && Good(b, c, m)
    ensures Good(a, c, m)
  {
    KeepsTransitive(a, b, c);
    BecameTrueTransitive(a.conditions, b.conditions, c.conditions);
  }

  lemma {:induction false} BecameTrueTransitive(a: seq<Condition>, b: seq<Condition>, c: seq<Condition>)
    requires OnlyBecameTrue(a, b) && OnlyBecameTrue(b, c)
    ensures OnlyBecameTrue(a, c)
  {
  }

  lemma {:induction false} Passed(st: Status, kind: Kind, m: Member, now: int)
    requires !kind.SyncChecked?
    ensures Good(st, SetCondition(st, kind, true, now), m)
    ensures SetCondition(st, kind, true, now).IsTrue(kind)
  {
  }

  lemma {:induction false} GoodKeepsTrue(st: Status, s: Status, m: Member, kind: Kind)
    requires Good(st, s, m) && st.IsTrue(kind)
    ensures s.IsTrue(kind)
  {
  }

  lemma {:induction false} SetMembersIsGood(spec: Spec, st: Status, m: Member, infos: seq<MemberInfo>)
    requires m.Master? ==> spec.master.Some?
    ensures Good(st, SetMembers(spec, st, m, infos), m)
  {
  }

  lemma {:induction false} VerifyMembersSucceeds(spec: Spec, st: Status, m: Member, a: Answers, now: int)
    requires m.Master? ==> spec.master.Some?
    requires VerifyMembers(spec, st, m, a, now).outcome == Done
    ensures var s := VerifyMembers(spec, st, m, a, now).status;
      && Good(st, s, m) && s.IsTrue(InfoUpdatedChecked(m)) && s.IsTrue(MembersChecked(m))
      && |s.Of(m).members| == DesiredReplicas(spec, s, m)
  {
    var s0 := SetMembers(spec, st, m, a.report.infos);
    var s1 := SetCondition(s0, InfoUpdatedChecked(m), true, now);
    var s2 := SetCondition(s1, MembersChecked(m), true, now);
    assert VerifyMembers(spec, st, m, a, now).status == s2;
    SetMembersIsGood(spec, st, m, a.report.infos);
    Passed(s0, InfoUpdatedChecked(m), m, now);
    GoodTransitive(st, s0, s1, m);
    Passed(s1, MembersChecked(m), m, now);
    GoodTransitive(st, s1, s2, m);
    GoodKeepsTrue(s1, s2, m, InfoUpdatedChecked(m));
  }

  lemma {:induction false} VerifyLeaderSucceeds(spec: Spec, st: Status, m: Member, a: Answers, now: int)
    requires m.Master? ==> spec.master.Some?
    requires VerifyLeader(spec, st, m, a, now).outcome == Done
    ensures var s := VerifyLeader(spec, st, m, a, now).status;
      && Good(st, s, m) && s.IsTrue(InfoUpdatedChecked(m)) && s.IsTrue(MembersChecked(m))
      && s.IsTrue(LeaderChecked)
      && |s.Of(m).members| == DesiredReplicas(spec, s, m)
  {
    hide Find, FindPos, VerifyMembers, UniqueKinds;
    var s0 := st.(leader := a.leader.value);
    var s1 := SetCondition(s0, LeaderChecked, true, now);
    var s := VerifyLeader(spec, st, m, a, now).status;
    assert Good(st, s0, m);
    Passed(s0, LeaderChecked, m, now);
    GoodTransitive(st, s0, s1, m);
    VerifyMembersSucceeds(spec, s1, m, a, now);
    GoodTransitive(st, s1, s, m);
    GoodKeepsTrue(s1, s, m, LeaderChecked);
  }

  lemma {:induction false} VerifyReadySucceeds(spec: Spec, st: Status, m: Member, a: Answers, now: int)
    requires m.Master? ==> spec.master.Some?
    requires VerifyReady(spec, st, m, a, now).outcome == Done
    ensures var s := VerifyReady(spec, st, m, a, now).status;
      && Good(st, s, m) && s.IsTrue(InfoUpdatedChecked(m)) && s.IsTrue(MembersChecked(m))
      && s.IsTrue(ReadyChecked(m)) && s.IsTrue(LeaderChecked)
      && |s.Of(m).members| == DesiredReplicas(spec, s, m) && ReadyVerified(spec, s, m)
  {
    var s1 := SetCondition(st, ReadyChecked(m), true, now);
    var s := VerifyReady(spec, st, m, a, now).status;
    Passed(st, ReadyChecked(m), m, now);
    VerifyLeaderSucceeds(spec, s1, m, a, now);
    GoodTransitive(st, s1, s, m);
    GoodKeepsTrue(s1, s, m, ReadyChecked(m));
  }

  lemma {:induction false} VerifyVersionSucceeds(spec: Spec, st: Status, m: Member, a: Answers, now: int)
    requires spec.Of(m).Some? && st.Of(m).sts.Some?
    requires VerifyVersion(spec, st, m, a, now).outcome == Done
    ensures var s := VerifyVersion(spec, st, m, a, now).status;
      && Good(st, s, m) && Checked(spec, s, m)
      && (m.Master? || st.IsTrue(ExecutorPVCChecked) ==> MemberChecksTrue(s.conditions, m))
  {
    hide Find, FindPos, UniqueKinds, OnlyBecameTrue, VerifyReady, SyncEntries.Stored;
    var s1 := SetCondition(st, MemberVersionChecked(m), true, now);
    var s2 := SetCondition(s1, ReplicaChecked(m), true, now);
    var s := VerifyVersion(spec, st, m, a, now).status;
    Passed(st, MemberVersionChecked(m), m, now);
    Passed(s1, ReplicaChecked(m), m, now);
    GoodTransitive(st, s1, s2, m);
    VerifyReadySucceeds(spec, s2, m, a, now);
    GoodTransitive(st, s2, s, m);
    GoodKeepsTrue(s1, s2, m, MemberVersionChecked(m));
    GoodKeepsTrue(s2, s, m, MemberVersionChecked(m));
    GoodKeepsTrue(s2, s, m, ReplicaChecked(m));
    if st.IsTrue(ExecutorPVCChecked) { GoodKeepsTrue(st, s, m, ExecutorPVCChecked); }
  }

  /** A member that passes has all its checks True, a snapshot that is the answer just given and
      meets the specification, and conditions whose time moved only with their status. */
  lemma {:induction false} VerifySucceeds(spec: Spec, st: Status, m: Member, a: Answers, now: int)
    requires !Skipped(spec, m) && spec.Of(m).Some? && Verify(spec, st, m, a, now).outcome == Done
    ensures var s := Verify(spec, st, m, a, now).status;
      && Checked(spec, s, m) && s.Of(m).sts == a.sts
      && MemberChecksTrue(s.conditions, m) && OnlyBecameTrue(st.conditions, s.conditions)
  {
    var s0 := SetSts(st, m, a.sts.value);
    var s1 := if m.Executor? then SetCondition(s0, ExecutorPVCChecked, true, now) else s0;
    Passed(s0, ExecutorPVCChecked, m, now);
    VerifyVersionSucceeds(spec, s1, m, a, now);
    BecameTrueTransitive(st.conditions, s1.conditions, Verify(spec, st, m, a, now).status.conditions);
  }

  /** What tiflow-master has to answer for a member to pass. */
  predicate Answered(spec: Spec, st: Status, m: Member, a: Answers)
    requires m.Master? ==> spec.master.Some?
  {
    && a.leader.Some? && a.report.Reported?
    && |OwnMembers(Id(spec, m), DesiredReplicas(spec, st, m), a.report.infos)| == DesiredReplicas(spec, st, m)
  }

  lemma {:induction false} ReportPassesExactly(spec: Spec, st: Status, m: Member, a: Answers, now: int)
    requires (m.Master? ==> spec.master.Some?) && a.leader.Some?
    ensures VerifyMembers(spec, st, m, a, now).outcome == Done <==> Answered(spec, st, m, a)
  {
    hide Set, OwnMembers, PeerMembers;
  }

  lemma {:induction false} ReadyPassesExactly(spec: Spec, st: Status, m: Member, a: Answers, now: int)
    requires m.Master? ==> spec.master.Some?
    ensures VerifyReady(spec, st, m, a, now).outcome == Done <==> ReadyVerified(spec, st, m) && Answered(spec, st, m, a)
  {
    hide Set, Find, OwnMembers, VerifyMembers;
    if a.leader.Some? {
      var s := SetCondition(st, ReadyChecked(m), true, now);
      ReportPassesExactly(spec, SetCondition(s.(leader := a.leader.value), LeaderChecked, true, now), m, a, now);
    }
  }

  /** The three checks of a snapshot. */
  predicate SnapshotPasses(spec: Spec, st: Status, m: Member)
    requires m.Master? ==> spec.master.Some?
  {
    VersionVerified(st, m) && ReplicasVerified(spec, st, m) && ReadyVerified(spec, st, m)
  }

  lemma {:induction false} VersionPassesExactly(spec: Spec, st: Status, m: Member, a: Answers, now: int)
    requires spec.Of(m).Some?
    ensures VerifyVersion(spec, st, m, a, now).outcome == Done <==>
      SnapshotPasses(spec, st, m) && Answered(spec, st, m, a)
  {
    hide Set, Find, OwnMembers, VerifyReady, UpToDate, VersionVerified, SyncEntries.Stored;
    var s := SetCondition(SetCondition(st, MemberVersionChecked(m), true, now), ReplicaChecked(m), true, now);
    ReadyPassesExactly(spec, s, m, a, now);
  }

  /** A member that is not skipped passes exactly if its set can be read, the snapshot stands the
      three checks, and tiflow-master names a leader and as many members as desired. */
  lemma {:induction false} VerifyPassesExactly(spec: Spec, st: Status, m: Member, a: Answers, now: int)
    requires !Skipped(spec, m) && spec.Of(m).Some?
    ensures Verify(spec, st, m, a, now).outcome == Done <==>
      a.sts.Some? && SnapshotPasses(spec, SetSts(st, m, a.sts.value), m) && Answered(spec, st, m, a)
  {
    hide Set, VerifyVersion, SyncEntries.Stored, OwnMembers, SnapshotPasses, Answered;
    if a.sts.Some? {
      var s0 := SetSts(st, m, a.sts.value);
      var s1 := if m.Executor? then SetCondition(s0, ExecutorPVCChecked, true, now) else s0;
      VersionPassesExactly(spec, s1, m, a, now);
      SameForSnapshot(spec, s0, s1, m);
      SameForAnswers(spec, st, s1, m, a);
    }
  }

  lemma {:induction false} SameForSnapshot(spec: Spec, s: Status, t: Status, m: Member)
    requires (m.Master? ==> spec.master.Some?) && t.Of(m) == s.Of(m)
    ensures SnapshotPasses(spec, t, m) == SnapshotPasses(spec, s, m)
  {
  }

  lemma {:induction false} SameForAnswers(spec: Spec, s: Status, t: Status, m: Member, a: Answers)
    requires (m.Master? ==> spec.master.Some?) && t.Of(m).failureMembers == s.Of(m).failureMembers
    ensures Answered(spec, t, m, a) == Answered(spec, s, m, a)
  {
    hide OwnMembers;
    assert DesiredReplicas(spec, t, m) == DesiredReplicas(spec, s, m);
  }

  /** Both members verified, before Apply. */
  lemma {:induction false} BothVerified(spec: Spec, st: Status, master: Answers, executor: Answers, now: int)
    requires !spec.heterogeneous && spec.master.Some? && spec.executor.Some?
    requires Verify(spec, st, Master, master, now).outcome == Done
    requires Verify(spec, Verify(spec, st, Master, master, now).status, Executor, executor, now).outcome == Done
    ensures var s := Verify(spec, Verify(spec, st, Master, master, now).status, Executor, executor, now).status;
      && MemberChecksTrue(s.conditions, Master) && MemberChecksTrue(s.conditions, Executor)
      && OnlyBecameTrue(st.conditions, s.conditions)
      && (UniqueKinds(st.conditions) ==> UniqueKinds(s.conditions))
      && Checked(spec, s, Master) && Checked(spec, s, Executor)
  {
    hide Verify, Find, FindPos, Checked, UniqueKinds, IsTrue;
    var s1 := Verify(spec, st, Master, master, now).status;
    var s2 := Verify(spec, s1, Executor, executor, now).status;
    VerifySucceeds(spec, st, Master, master, now);
    VerifySucceeds(spec, s1, Executor, executor, now);
    VerifyKeeps(spec, st, Master, master, now);
    VerifyKeeps(spec, s1, Executor, executor, now);
    BecameTrueTransitive(st.conditions, s1.conditions, s2.conditions);
    ChecksStayTrue(s1.conditions, s2.conditions, Master);
    CheckedReadsOneMember(spec, s1, s2, Master);
  }

  lemma {:induction false} CheckedReadsOneMember(spec: Spec, a: Status, b: Status, m: Member)
    requires a.Of(m) == b.Of(m) && Checked(spec, a, m)
    ensures Checked(spec, b, m)
  {
  }

  lemma {:induction false} ChecksStayTrue(before: seq<Condition>, after: seq<Condition>, m: Member)
    requires OnlyBecameTrue(before, after) && MemberChecksTrue(before, m)
    ensures MemberChecksTrue(after, m)
  {
  }

  /** When condition Sync succeeds in a cluster with both members local and no reference to
      another one, every check condition is True at once, condition types are still unique, a
      condition that was True keeps its transition time, and both snapshots meet the spec. */
  lemma {:induction false} SyncSucceeds(spec: Spec, st: Status, master: Answers, executor: Answers, now: int)
    requires !spec.heterogeneous && spec.master.Some? && spec.executor.Some?
    requires ConditionSync(spec, st, master, executor, now).outcome == Done
    ensures var s := ConditionSync(spec, st, master, executor, now).status;
      && AllChecksTrue(s.conditions) && OnlyBecameTrue(st.conditions, s.conditions)
      && (UniqueKinds(st.conditions) ==> UniqueKinds(s.conditions))
      && Checked(spec, s, Master) && Checked(spec, s, Executor)
  {
    hide Verify, Find, FindPos, Checked, UniqueKinds, OnlyBecameTrue, Apply;
    var s1 := Verify(spec, st, Master, master, now).status;
    var s2 := Verify(spec, s1, Executor, executor, now).status;
    var s3 := Apply(s2, now);
    BothVerified(spec, st, master, executor, now);
    ApplyMakesTrue(s2, now);
    BecameTrueTransitive(st.conditions, s2.conditions, s3.conditions);
    ChecksStayTrue(s2.conditions, s3.conditions, Master);
    ChecksStayTrue(s2.conditions, s3.conditions, Executor);
    CheckedReadsOneMember(spec, s2, s3, Master);
    CheckedReadsOneMember(spec, s2, s3, Executor);
    AllChecksOfBoth(s3.conditions);
  }

  lemma {:induction false} AllChecksOfBoth(conds: seq<Condition>)
    requires MemberChecksTrue(conds, Master) && MemberChecksTrue(conds, Executor)
    requires IsTrue(conds, VersionChecked)
    requires IsTrue(conds, SyncChecked(Master)) && IsTrue(conds, SyncChecked(Executor))
    ensures AllChecksTrue(conds)
  {
    hide IsTrue;
    assert MemberChecksTrue(conds, Executor);
    forall m: Member
      ensures
        && IsTrue(conds, InfoUpdatedChecked(m)) && IsTrue(conds, MemberVersionChecked(m))
        && IsTrue(conds, ReplicaChecked(m)) && IsTrue(conds, ReadyChecked(m))
        && IsTrue(conds, MembersChecked(m)) && IsTrue(conds, SyncChecked(m))
    {
      match m
      case Master =>
      case Executor =>
    }
  }

  lemma {:induction false} Declared(st: Status, kind: Kind, now: int)
    ensures var s := SetCondition(st, kind, true, now);
      && OnlyBecameTrue(st.conditions, s.conditions) && s == st.(conditions := s.conditions) && s.IsTrue(kind)
      && (forall k | k != kind :: s.IsTrue(k) <==> st.IsTrue(k))
      && (UniqueKinds(st.conditions) ==> UniqueKinds(s.conditions))
  {
    hide Set, FindPos, Find, UniqueKinds;
  }

  lemma {:induction false} ApplyMakesTrue(st: Status, now: int)
    ensures var s := Apply(st, now);
      && OnlyBecameTrue(st.conditions, s.conditions)
      && s == st.(conditions := s.conditions)
      && s.IsTrue(VersionChecked) && s.IsTrue(SyncChecked(Master)) && s.IsTrue(SyncChecked(Executor))
      && (UniqueKinds(st.conditions) ==> UniqueKinds(s.conditions))
  {
    hide SetCondition, OnlyBecameTrue, IsTrue, UniqueKinds;
    var s1 := SetCondition(st, SyncChecked(Master), true, now);
    var s2 := SetCondition(s1, SyncChecked(Executor), true, now);
    Declared(st, SyncChecked(Master), now);
    Declared(s1, SyncChecked(Executor), now);
    Declared(s2, VersionChecked, now);
    BecameTrueTransitive(st.conditions, s1.conditions, s2.conditions);
    BecameTrueTransitive(st.conditions, s2.conditions, Apply(st, now).conditions);
  }
}
