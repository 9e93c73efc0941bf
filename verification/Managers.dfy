/** The member managers: create, wait, scale, upgrade and write the member's StatefulSet. */
module Managers {
  import opened Api
  import opened Clusters
  import Conditions
  import SyncEntries
  import Scaling
  import Upgrading

  datatype StsAnswer = StsMissing | StsError | StsFound(existing: Upgrading.StsObject)

  /** Every answer of the API server to one manager's Sync. */
  datatype Answers = Answers(
    servicesOk: bool, sts: StsAnswer, configOk: bool, encodeOk: bool, createOk: bool,
    scaling: Scaling.Answers, pods: nat -> Upgrading.Pod, updateOk: bool)

  /** What a Sync did to the StatefulSet, beside the status it leaves. `written` is the set that
      was handed to UpdateStatefulSet, if it got that far. */
  datatype Effect =
    | NoEffect
    | CreateCalled
    | ForceWritten(forced: Upgrading.Desired)
    | Adjusted(scaled: bool, upgraded: bool, written: Option<Upgrading.Desired>)

  datatype Result = Result(status: Status, outcome: Outcome, effect: Effect)

  /** The set that the specification asks for; its partition starts at the replica count. */
  function NewSet(spec: Spec, st: Status, m: Member): Upgrading.Desired
    requires spec.Of(m).Some?
  {
    var s := spec.Of(m).value;
    Upgrading.Desired(
      if m.Master? then s.replicas else DesiredReplicas(spec, st, m),
      if s.onDelete then Upgrading.Strategy(true, None) else Upgrading.Strategy(false, Some(s.replicas)),
      false)
  }

  function Create(st: Status, m: Member, a: Answers, now: int): Result {
    var s := Mark(SetCondition(st, Conditions.SyncChecked(m), false, now), m, CreateType, Ongoing);
    if !a.encodeOk then Result(s, OtherErr, NoEffect)
    else if !a.createOk then Result(Mark(s, m, CreateType, Failed), OtherErr, CreateCalled)
    else Result(SetSts(s, m, NEW_STS_STATUS), Done, CreateCalled)
  }

  predicate WantsUpgrade(st: Status, m: Member, existing: Upgrading.StsObject) {
    !existing.templateEqual || st.Of(m).phase == Upgrading
  }

  /** Scale first; then upgrade when the template differs or an upgrade is under way; then write. */
  function Adjust(spec: Spec, st: Status, m: Member, existing: Upgrading.StsObject, a: Answers, now: int): Result
    requires spec.Of(m).Some?
  {
    var desired := NewSet(spec, st, m);
    var scaled := existing.replicas != desired.replicas;
    var r := Scaling.Scale(spec, st, m, existing.replicas, desired.replicas, a.scaling, now);
    if r.outcome != Done then Result(r.status, r.outcome, Adjusted(scaled, false, None))
    else if !WantsUpgrade(r.status, m, existing) then
      Result(r.status, if a.updateOk then Done else OtherErr, Adjusted(scaled, false, Some(desired)))
    else
      var u := Upgrading.GracefulUpgrade(spec, r.status, m, existing, desired, a.pods, now);
      if u.outcome == Panic then Result(u.status, Panic, Adjusted(scaled, true, None))
      else if u.outcome != Done then
        Result(Mark(u.status, m, UpgradeType, Failed), u.outcome, Adjusted(scaled, true, None))
      else Result(u.status, if a.updateOk then Done else OtherErr, Adjusted(scaled, true, Some(u.desired)))
  }

  /** While the member's check condition is False, only a forced upgrade touches the set. */
  function SyncSet(spec: Spec, st: Status, m: Member, existing: Upgrading.StsObject, a: Answers, now: int): Result
    requires spec.Of(m).Some?
  {
    if !st.IsFalse(Conditions.SyncChecked(m)) then Adjust(spec, st, m, existing, a, now)
    else if spec.forceUpgrade then 
      Result(SetPhase(st, m, Upgrading), OtherErr, ForceWritten(Upgrading.WithPartition(NewSet(spec, st, m), 0)))
    else Result(st, Done, NoEffect)
  }

  function Sync(spec: Spec, st: Status, m: Member, a: Answers, now: int): Result {
    if spec.Of(m).None? then Result(st, Done, NoEffect)
    else if !a.servicesOk || a.sts.StsError? || !a.configOk then Result(st, OtherErr, NoEffect)
    else if a.sts.StsMissing? then Create(st, m, a, now)
    else SyncSet(spec, st, m, a.sts.existing, a, now)
  }

  // ----- the code -----

  method RunSync(tc: Cluster, m: Member, a: Answers, now: int) returns (outcome: Outcome, effect: Effect)
    modifies tc
    ensures Result(tc.status, outcome, effect) == Sync(tc.spec, old(tc.status), m, a, now)
  {
    hide Adjust, Conditions.Set, SyncEntries.SetStatus, Conditions.Find;
    effect := NoEffect;
    if tc.spec.Of(m) == None { return Done, effect; }
    if !a.servicesOk { return OtherErr, effect; }
    if a.sts == StsError { return OtherErr, effect; }
    if !a.configOk { return OtherErr, effect; }

    if a.sts == StsMissing {
      tc.SetConditionStatus(Conditions.SyncChecked(m), false, now);
      tc.MarkSync(m, CreateType, Ongoing);
      if !a.encodeOk { return OtherErr, effect; }
      effect := CreateCalled;
      if !a.createOk {
        tc.MarkSync(m, CreateType, Failed);
        return OtherErr, effect;
      }
      tc.status := SetSts(tc.status, m, NEW_STS_STATUS);
      return Done, effect;
    }

    if tc.status.IsFalse(Conditions.SyncChecked(m)) {
      if tc.spec.forceUpgrade {
        var forced := Upgrading.WithPartition(NewSet(tc.spec, tc.status, m), 0);
        tc.status := SetPhase(tc.status, m, Upgrading);
        return OtherErr, ForceWritten(forced);
      }
      return Done, effect;
    }
    outcome, effect := RunAdjust(tc, m, a.sts.existing, a, now);
  }

  method RunAdjust(tc: Cluster, m: Member, existing: Upgrading.StsObject, a: Answers, now: int)
    returns (outcome: Outcome, effect: Effect)
    requires tc.spec.Of(m).Some?
    modifies tc
    ensures Result(tc.status, outcome, effect) == Adjust(tc.spec, old(tc.status), m, existing, a, now)
  {
    hide Scaling.Scale, Upgrading.GracefulUpgrade, SyncEntries.SetStatus;
    var desired := NewSet(tc.spec, tc.status, m);
    effect := Adjusted(existing.replicas != desired.replicas, false, None);
    outcome := Scaling.RunScale(tc, m, existing.replicas, desired.replicas, a.scaling, now);
    if outcome != Done { return; }

    if !existing.templateEqual || tc.status.Of(m).phase == Upgrading {
      effect := effect.(upgraded := true);
      var d;
      outcome, d := Upgrading.RunGracefulUpgrade(tc, m, existing, desired, a.pods, now);
      if outcome == Panic { return; }
      if outcome != Done {
        tc.MarkSync(m, UpgradeType, Failed);
        return;
      }
      desired := d;
    }
    effect := effect.(written := Some(desired));
    outcome := if a.updateOk then Done else OtherErr;
  }

  // ----- what a manager may do to the status -----

  /** Creating, scaling or upgrading; a write alone changes no status. */
  predicate Acts(e: Effect) { e.CreateCalled? || (e.Adjusted? && (e.scaled || e.upgraded)) }

  /** The other member, the other conditions and the list's shape are left alone. */
  ghost predicate Local(a: Status, b: Status, m: Member) {
    && (m.Master? ==> b.executor == a.executor) && (m.Executor? ==> b.master == a.master)
    && b.leader == a.leader && b.clusterPhase == a.clusterPhase
    && b.Of(m).failureMembers == a.Of(m).failureMembers
    && (WellFormed(a) ==> WellFormed(b))
    && (forall k | k != Conditions.SyncChecked(m) ::
          Conditions.Find(b.conditions, k) == Conditions.Find(a.conditions, k))
    && (forall n | n !in OPERATOR_NAMES :: b.Of(m).Stored(n) == a.Of(m).Stored(n))
  }

  /** Entries change only together with a False check condition; the phase only to Upgrading;
      and a member that still shows Running has its upgrade entry untouched. */
  ghost predicate Guarded(a: Status, b: Status, m: Member) {
    && Local(a, b, m)
    && (b.Of(m).phase == a.Of(m).phase || b.Of(m).phase == Upgrading)
    && (b.IsFalse(Conditions.SyncChecked(m))
        || (b.Of(m).syncTypes == a.Of(m).syncTypes
            && Conditions.Find(b.conditions, Conditions.SyncChecked(m))
               == Conditions.Find(a.conditions, Conditions.SyncChecked(m))))
    && (b.Of(m).phase == Running ==> b.Of(m).Stored(UpgradeType) == a.Of(m).Stored(UpgradeType))
  }

  lemma {:induction false} GuardedTransitive(a: Status, b: Status, c: Status, m: Member)
    requires Guarded(a, b, m) && Guarded(b, c, m)
    ensures Guarded(a, c, m)
  {
    hide Conditions.Find, SyncEntries.Stored, WellFormed;
  }

  /** Opening an entry: the check condition turns False, then the entry is Ongoing. */
  lemma {:induction false} OpenIsGuarded(st: Status, m: Member, name: SyncName, now: int)
    requires name in OPERATOR_NAMES && (name == UpgradeType ==> st.Of(m).phase != Running)
    ensures var s := Mark(SetCondition(st, Conditions.SyncChecked(m), false, now), m, name, Ongoing);
      && Guarded(st, s, m) && s.IsFalse(Conditions.SyncChecked(m))
      && s.Of(m).phase == st.Of(m).phase
      && s.Of(m).Stored(name) == Some(Ongoing)
  {
    hide Conditions.FindPos, SyncEntries.FindPos, SyncEntries.Stored, Conditions.Find;
  }

  lemma {:induction false} MarkIsGuarded(st: Status, m: Member, name: SyncName, s: SyncStatus)
    requires name in OPERATOR_NAMES && (name == UpgradeType ==> st.Of(m).phase != Running)
    requires st.IsFalse(Conditions.SyncChecked(m))
    ensures Guarded(st, Mark(st, m, name, s), m) && Mark(st, m, name, s).IsFalse(Conditions.SyncChecked(m))
  {
    hide Conditions.FindPos, SyncEntries.FindPos, SyncEntries.Stored, Conditions.Find;
  }

  lemma {:induction false} ScaleIsGuarded(spec: Spec, st: Status, m: Member, actual: nat, desired: nat,
      a: Scaling.Answers, now: int)
    ensures var r := Scaling.Scale(spec, st, m, actual, desired, a, now);
      && Guarded(st, r.status, m) && r.status.Of(m).phase == st.Of(m).phase && r.outcome != Panic
      && (actual != desired ==> r.status.IsFalse(Conditions.SyncChecked(m)))
      && (actual == desired ==> r.status == st && r.outcome == Done)
  {
    hide Scaling.StepsTaken, Conditions.Set, SyncEntries.SetStatus, SyncEntries.Stored, Conditions.Find,
      Scaling.LeaderStops, Guarded;
    SameIsGuarded(st, m);
    var name := if actual < desired then ScaleOutType else ScaleInType;
    var s := Scaling.Begin(st, m, name, now);
    var failed := Mark(s, m, name, Failed);
    OpenIsGuarded(st, m, name, now);
    MarkIsGuarded(s, m, name, Failed);
    GuardedTransitive(st, s, failed, m);
  }

  /** Whatever it then decides about the set, an upgrade leaves one and the same status. */
  lemma {:induction false} UpgradeStatus(spec: Spec, st: Status, m: Member, existing: Upgrading.StsObject,
      d: Upgrading.Desired, pods: nat -> Upgrading.Pod, now: int)
    ensures Upgrading.GracefulUpgrade(spec, st, m, existing, d, pods, now).status
         == Mark(SetCondition(if st.Of(m).Scaling() then st else SetPhase(st, m, Upgrading),
                              Conditions.SyncChecked(m), false, now), m, UpgradeType, Ongoing)
  {
    hide Upgrading.Scan, Conditions.Set, SyncEntries.SetStatus;
  }

  lemma {:induction false} UpgradeIsGuarded(spec: Spec, st: Status, m: Member, existing: Upgrading.StsObject,
      d: Upgrading.Desired, pods: nat -> Upgrading.Pod, now: int)
    ensures var u := Upgrading.GracefulUpgrade(spec, st, m, existing, d, pods, now);
      && Guarded(st, u.status, m) && u.status.IsFalse(Conditions.SyncChecked(m))
      && u.status.Of(m).phase == (if st.Of(m).Scaling() then st.Of(m).phase else Upgrading)
      && u.status.Of(m).Stored(UpgradeType) == Some(Ongoing)
  {
    hide Upgrading.GracefulUpgrade, SyncEntries.Stored, Conditions.Find, Conditions.Set, SyncEntries.SetStatus,
      Guarded;
    var s0 := if st.Of(m).Scaling() then st else SetPhase(st, m, Upgrading);
    UpgradeStatus(spec, st, m, existing, d, pods, now);
    OpenIsGuarded(s0, m, UpgradeType, now);
    UpgradingPhaseIsGuarded(st, m);
    SameIsGuarded(st, m);
    GuardedTransitive(st, s0, Upgrading.GracefulUpgrade(spec, st, m, existing, d, pods, now).status, m);
  }

  lemma {:induction false} SameIsGuarded(st: Status, m: Member)
    ensures Guarded(st, st, m)
  {
    hide Conditions.Find, SyncEntries.Stored, WellFormed;
  }

  lemma {:induction false} AdjustIsGuarded(spec: Spec, st: Status, m: Member, existing: Upgrading.StsObject,
      a: Answers, now: int)
    requires spec.Of(m).Some?
    ensures var r := Adjust(spec, st, m, existing, a, now);
      && Guarded(st, r.status, m)
      && (Acts(r.effect) ==> r.status.IsFalse(Conditions.SyncChecked(m)))
      && (!Acts(r.effect) ==> r.status == st)
  {
    hide Scaling.Scale, Upgrading.GracefulUpgrade, Conditions.Find, SyncEntries.Stored, Guarded,
      SyncEntries.SetStatus;
    var desired := NewSet(spec, st, m);
    var r := Scaling.Scale(spec, st, m, existing.replicas, desired.replicas, a.scaling, now);
    ScaleIsGuarded(spec, st, m, existing.replicas, desired.replicas, a.scaling, now);
    if r.outcome == Done && WantsUpgrade(r.status, m, existing) {
      var u := Upgrading.GracefulUpgrade(spec, r.status, m, existing, desired, a.pods, now);
      UpgradeIsGuarded(spec, r.status, m, existing, desired, a.pods, now);
      GuardedTransitive(st, r.status, u.status, m);
      MarkIsGuarded(u.status, m, UpgradeType, Failed);
      GuardedTransitive(st, u.status, Mark(u.status, m, UpgradeType, Failed), m);
    }
  }

  lemma {:induction false} CreateIsGuarded(st: Status, m: Member, a: Answers, now: int)
    ensures var r := Create(st, m, a, now);
      Guarded(st, r.status, m) && r.status.IsFalse(Conditions.SyncChecked(m)) && !r.effect.Adjusted?
  {
    hide Conditions.Find, SyncEntries.Stored, SyncEntries.SetStatus, Guarded, Conditions.Set;
    var s := Mark(SetCondition(st, Conditions.SyncChecked(m), false, now), m, CreateType, Ongoing);
    OpenIsGuarded(st, m, CreateType, now);
    MarkIsGuarded(s, m, CreateType, Failed);
    GuardedTransitive(st, s, Mark(s, m, CreateType, Failed), m);
    SetStsIsGuarded(s, m);
    GuardedTransitive(st, s, SetSts(s, m, NEW_STS_STATUS), m);
  }

  lemma {:induction false} SetStsIsGuarded(st: Status, m: Member)
    requires st.IsFalse(Conditions.SyncChecked(m))
    ensures Guarded(st, SetSts(st, m, NEW_STS_STATUS), m)
    ensures SetSts(st, m, NEW_STS_STATUS).IsFalse(Conditions.SyncChecked(m))
  {
  }

  lemma {:induction false} UpgradingPhaseIsGuarded(st: Status, m: Member)
    ensures Guarded(st, SetPhase(st, m, Upgrading), m)
  {
  }

  /** Whatever the API server answers, a manager stays within the protocol; a manager that
      creates, scales or upgrades leaves its check condition False; and it scales or upgrades
      only if the condition was not False before. */
  lemma {:induction false} SyncIsGuarded(spec: Spec, st: Status, m: Member, a: Answers, now: int)
    ensures var r := Sync(spec, st, m, a, now);
      && Guarded(st, r.status, m)
      && (Acts(r.effect) ==> r.status.IsFalse(Conditions.SyncChecked(m)))
      && (r.effect.Adjusted? ==> !st.IsFalse(Conditions.SyncChecked(m)))
      && (spec.Of(m).None? ==> r.status == st && r.outcome == Done)
  {
    hide Adjust, Create, Conditions.Find, SyncEntries.Stored, SyncEntries.SetStatus, WellFormed;
    UpgradingPhaseIsGuarded(st, m);
    if spec.Of(m).Some? && a.sts.StsFound? {
      AdjustIsGuarded(spec, st, m, a.sts.existing, a, now);
    } else if spec.Of(m).Some? && a.sts.StsMissing? {
      CreateIsGuarded(st, m, a, now);
    }
  }

  /** Scaling takes precedence: an upgrade is looked at only once the set stands at the replica
      count asked for, and a scaling error leaves template and upgrade entry alone. */
  lemma {:induction false} UpgradeOnlyAtFullScale(spec: Spec, st: Status, m: Member, existing: Upgrading.StsObject,
      a: Answers, now: int)
    requires spec.Of(m).Some?
    ensures var r := Adjust(spec, st, m, existing, a, now);
      var scale := Scaling.Scale(spec, st, m, existing.replicas, NewSet(spec, st, m).replicas, a.scaling, now);
      && r.effect.Adjusted?
      && (r.effect.upgraded ==> scale.replicas == NewSet(spec, st, m).replicas)
      && (scale.replicas != NewSet(spec, st, m).replicas ==>
            r.outcome == OtherErr && r.status.Of(m).Stored(UpgradeType) == st.Of(m).Stored(UpgradeType))
  {
    hide Upgrading.GracefulUpgrade, SyncEntries.Stored, Scaling.ScaleOut, Scaling.ScaleIn;
    var desired := NewSet(spec, st, m).replicas;
    if existing.replicas != desired {
      ScalingKeepsUpgrade(spec, st, m, existing.replicas, desired, a.scaling, now);
    }
  }

  lemma {:induction false} ScalingKeepsUpgrade(spec: Spec, st: Status, m: Member, actual: nat, desired: nat,
      a: Scaling.Answers, now: int)
    requires actual != desired
    ensures var r := Scaling.Scale(spec, st, m, actual, desired, a, now);
      && (r.outcome == Done ==> r.replicas == desired)
      && (r.outcome == Done || r.outcome == OtherErr)
      && r.status.Of(m).Stored(UpgradeType) == st.Of(m).Stored(UpgradeType)
  {
    hide SyncEntries.Stored, Conditions.Set, Scaling.LeaderStops;
  }
}
