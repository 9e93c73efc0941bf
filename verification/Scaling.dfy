/** The scalers: replica counts move one at a time, and every refusal ends the walk. */
module Scaling {
  import opened Api
  import opened Clusters
  import Conditions
  import SyncEntries
  import Names
  import NameParsing
  import LeaderNames

  /** `accepts(k)` is the API server's answer to the k-th replica update. */
  datatype Answers = Answers(accepts: nat -> bool, pruneOk: bool)

  datatype Result = Result(status: Status, outcome: Outcome, replicas: nat)

  /** How many of `n` steps are taken before the first one that does not pass. */
  function StepsTaken(passes: nat -> bool, n: nat): (k: nat)
    ensures k <= n
    ensures forall j | 0 <= j < k :: passes(j)
    ensures k < n ==> !passes(k)
  {
    if n == 0 then 0
    else
      var k := StepsTaken(passes, n - 1);
      if k == n - 1 && passes(k) then n else k
  }

  function Begin(st: Status, m: Member, name: SyncName, now: int): Status {
    Mark(SetCondition(st, Conditions.SyncChecked(m), false, now), m, name, Ongoing)
  }

  predicate Prunes(spec: Spec, m: Member) {
    m.Executor? && spec.executor.Some? && !spec.executor.value.stateful
  }

  function ScaleOut(spec: Spec, st: Status, m: Member, actual: nat, desired: nat, a: Answers, now: int): Result
    requires actual < desired
  {
    var s := Begin(st, m, ScaleOutType, now);
    var steps := if Prunes(spec, m) && !a.pruneOk then 0 else StepsTaken(a.accepts, desired - actual);
    if steps == desired - actual then Result(s, Done, desired)
    else Result(Mark(s, m, ScaleOutType, Failed), OtherErr, actual + steps)
  }

  /** Before the master's pod `ordinal` goes, the leader test may stop the walk; pod 0 is exempt. */
  predicate LeaderStops(spec: Spec, st: Status, m: Member, ordinal: int) {
    m.Master? && ordinal > 0 && LeaderNames.ScalerSeesLeader(st.leader, spec.name, ordinal)
  }

  function ScaleInPasses(spec: Spec, st: Status, m: Member, actual: nat, a: Answers): nat -> bool {
    (k: nat) => !LeaderStops(spec, st, m, actual - 1 - k) && a.accepts(k)
  }

  function ScaleIn(spec: Spec, st: Status, m: Member, actual: nat, desired: nat, a: Answers, now: int): Result
    requires desired < actual
  {
    var s := Begin(st, m, ScaleInType, now);
    var steps := StepsTaken(ScaleInPasses(spec, st, m, actual, a), actual - desired);
    if steps == actual - desired && (Prunes(spec, m) ==> a.pruneOk) then Result(s, Done, desired)
    else Result(Mark(s, m, ScaleInType, Failed), OtherErr, actual - steps)
  }

  function Scale(spec: Spec, st: Status, m: Member, actual: nat, desired: nat, a: Answers, now: int): Result {
    if actual < desired then ScaleOut(spec, st, m, actual, desired, a, now)
    else if desired < actual then ScaleIn(spec, st, m, actual, desired, a, now)
    else Result(st, Done, actual)
  }

  // ----- the code; `accepted` are the replica counts that the API server took, in order -----

  method RunScaleOut(tc: Cluster, m: Member, actual: nat, desired: nat, a: Answers, now: int)
    returns (outcome: Outcome, accepted: seq<int>)
    requires actual < desired
    modifies tc
    ensures var r := ScaleOut(tc.spec, old(tc.status), m, actual, desired, a, now);
      tc.status == r.status && outcome == r.outcome && r.replicas == actual + |accepted| <= desired
    ensures forall i | 0 <= i < |accepted| :: accepted[i] == actual + 1 + i
    ensures outcome == Done ==> accepted[|accepted| - 1] == desired
    ensures outcome != Done ==> tc.status.Of(m).Stored(ScaleOutType) == Some(Failed)
  {
    hide Conditions.Set, SyncEntries.SetStatus, SyncEntries.FindPos;
    accepted := [];
    tc.SetConditionStatus(Conditions.SyncChecked(m), false, now);
    tc.MarkSync(m, ScaleOutType, Ongoing);
    if m == Executor && tc.spec.executor != None && !tc.spec.executor.value.stateful && !a.pruneOk {
      tc.MarkSync(m, ScaleOutType, Failed);
      return OtherErr, accepted;
    }
    var current := actual;
    for i := 0 to desired - actual
      invariant current == actual + i && |accepted| == i
      invariant forall j | 0 <= j < i :: a.accepts(j) && accepted[j] == actual + 1 + j
      invariant tc.status == Begin(old(tc.status), m, ScaleOutType, now)
    {
      if !a.accepts(i) {
        tc.MarkSync(m, ScaleOutType, Failed);
        return OtherErr, accepted;
      }
      accepted := accepted + [current + 1];
      current := current + 1;
    }
    return Done, accepted;
  }

  method RunScaleIn(tc: Cluster, m: Member, actual: nat, desired: nat, a: Answers, now: int)
    returns (outcome: Outcome, accepted: seq<int>)
    requires desired < actual
    modifies tc
    ensures var r := ScaleIn(tc.spec, old(tc.status), m, actual, desired, a, now);
      tc.status == r.status && outcome == r.outcome && r.replicas == actual - |accepted| >= desired
    ensures forall i | 0 <= i < |accepted| :: accepted[i] == actual - 1 - i
    ensures outcome == Done ==> accepted[|accepted| - 1] == desired
    ensures outcome != Done ==> tc.status.Of(m).Stored(ScaleInType) == Some(Failed)
  {
    hide Conditions.Set, SyncEntries.SetStatus, LeaderNames.ScalerSeesLeader;
    ghost var passes := ScaleInPasses(tc.spec, old(tc.status), m, actual, a);
    accepted := [];
    tc.SetConditionStatus(Conditions.SyncChecked(m), false, now);
    tc.MarkSync(m, ScaleInType, Ongoing);
    var current: int := actual;
    for i := 0 to actual - desired
      invariant current == actual - i && |accepted| == i
      invariant forall j | 0 <= j < i ::
        passes(j) && accepted[j] == actual - 1 - j
      invariant tc.status.leader == old(tc.status).leader
      invariant tc.status == Begin(old(tc.status), m, ScaleInType, now)
    {
      if (m == Master && current - 1 > 0 && LeaderNames.ScalerSeesLeader(tc.status.leader, tc.spec.name, current - 1))
         || !a.accepts(i) {
        assert LeaderStops(tc.spec, old(tc.status), m, actual - 1 - i) || !a.accepts(i);
        assert !passes(i);
        tc.MarkSync(m, ScaleInType, Failed);
        return OtherErr, accepted;
      }
      assert passes(i);
      accepted := accepted + [current - 1];
      current := current - 1;
    }
    if m == Executor && tc.spec.executor != None && !tc.spec.executor.value.stateful && !a.pruneOk {
      tc.MarkSync(m, ScaleInType, Failed);
      return OtherErr, accepted;
    }
    return Done, accepted;
  }

  method RunScale(tc: Cluster, m: Member, actual: nat, desired: nat, a: Answers, now: int)
    returns (outcome: Outcome)
    modifies tc
    ensures var r := Scale(tc.spec, old(tc.status), m, actual, desired, a, now);
      tc.status == r.status && outcome == r.outcome
  {
    hide ScaleOut, ScaleIn;
    if actual < desired {
      var accepted;
      outcome, accepted := RunScaleOut(tc, m, actual, desired, a, now);
    } else if desired < actual {
      var accepted;
      outcome, accepted := RunScaleIn(tc, m, actual, desired, a, now);
    } else {
      outcome := Done;
    }
  }

  // ----- the leader -----

  /** A scale-in of the masters stops above the recorded leader's pod, whatever the API server
      answers; if it refuses nothing before that, the count ends at exactly leader + 1, with an
      error and a Failed entry. Only pod 0 is not protected. */
  lemma {:induction false} ScaleInKeepsLeader(spec: Spec, st: Status, actual: nat, desired: nat, a: Answers,
      now: int, leader: nat)
    requires desired <= leader < actual && leader > 0
    requires st.leader == Names.PodName(spec.name, Master, leader)
    ensures var r := ScaleIn(spec, st, Master, actual, desired, a, now);
      && r.outcome == OtherErr && r.status.master.Stored(ScaleInType) == Some(Failed)
      && r.replicas >= leader + 1
      && (r.replicas == leader + 1 <==> forall k: nat | k < actual - 1 - leader :: a.accepts(k))
  {
    hide Names.PodName;
    var passes := ScaleInPasses(spec, st, Master, actual, a);
    forall ordinal: nat
      ensures LeaderStops(spec, st, Master, ordinal) <==> ordinal == leader
    {
      if LeaderStops(spec, st, Master, ordinal) {
        Names.PodNameInjective(spec.name, Master, ordinal, leader);
      }
    }
    var stop := actual - 1 - leader;
    assert LeaderStops(spec, st, Master, actual - 1 - stop);
    assert !passes(stop);
    forall k: nat | k < stop ensures passes(k) == a.accepts(k) {
      assert !LeaderStops(spec, st, Master, actual - 1 - k);
    }
  }

  /** With an advertised address on record no ordinal is protected: the walk depends on the API
      server's answers alone. */
  lemma {:induction false} AdvertisedLeaderIsNotKept(spec: Spec, st: Status, actual: nat, desired: nat, a: Answers,
      now: int, leader: nat, domain: string)
    requires desired < actual
    requires ':' !in spec.name && ':' !in spec.namespace && ':' !in domain
    requires st.leader == LeaderNames.AdvertisedAddress(spec.name, leader, spec.namespace, domain)
    ensures ScaleIn(spec, st, Master, actual, desired, a, now).replicas
         == actual - StepsTaken(a.accepts, actual - desired)
  {
    hide LeaderNames.AdvertisedAddress, NameParsing.EndsWith;
    forall ordinal: nat ensures !LeaderStops(spec, st, Master, ordinal) {
      LeaderNames.LeaderTestsFireExactly(spec.name, leader, ordinal, spec.namespace, domain);
    }
    SameSteps(ScaleInPasses(spec, st, Master, actual, a), a.accepts, actual - desired);
  }

  lemma {:induction false} SameSteps(p: nat -> bool, q: nat -> bool, n: nat)
    requires forall k: nat | k < n :: p(k) == q(k)
    ensures StepsTaken(p, n) == StepsTaken(q, n)
  {
    if n > 0 { SameSteps(p, q, n - 1); }
  }
}
