/** The rolling upgrade as a protocol: gracefulUpgrade reads one pod at a time and writes one
    partition, while the StatefulSet controller keeps moving pods in between. */
module Rollout {
  import opened Api
  import opened Clusters
  import opened Upgrading
  import Conditions
  import SyncEntries
  import Managers

  /** What stays fixed during a rollout: the template's revision and the replica count. */
  datatype Setting = Setting(spec: Spec, m: Member, target: string, replicas: nat)

  /** The operator between two accesses to the API server. A scan has read the ordinals from
      `next` on; `base` is the partition it found in the set. */
  datatype Op =
    | Idle
    | Scanning(st: Status, base: nat, next: nat, read: map<nat, Pod>)
    | Writing(st: Status, base: nat, partition: nat, read: map<nat, Pod>)

  /** An absent pod is Unreadable. */
  datatype State = State(partition: nat, pods: seq<Pod>, op: Op)

  datatype Event =
    | Begin(st: Status)
    | LookAtPod(failed: bool)
    | Write(accepted: bool)
    | Abandon
    | Move(ordinal: nat, pod: Pod)
    | Reset(accepted: bool)

  /** A pod that exists with another revision, or with none. */
  predicate Stale(c: Setting, pod: Pod) { pod.Pod? && !Updated(pod, c.target) }

  /** Below the partition the controller makes pods of the old revision; from it on it leaves
      the new revision alone and recreates absent pods with it. */
  predicate ControllerMay(c: Setting, s: State, k: nat, pod: Pod)
    requires k < |s.pods|
  {
    if k < s.partition then !Updated(pod, c.target)
    else Stale(c, s.pods[k]) || !Stale(c, pod)
  }

  predicate Enabled(c: Setting, s: State, e: Event) {
    match e
    case Begin(st) => s.op.Idle? && st.Of(c.m).sts.Some? && st.Of(c.m).sts.value.updateRevision == c.target
    case LookAtPod(_) => s.op.Scanning? && s.op.next <= |s.pods|
    case Write(_) => s.op.Writing?
    case Abandon => true
    case Move(k, pod) => k < |s.pods| && ControllerMay(c, s, k, pod)
    case Reset(_) => s.op.Idle?
  }

  /** An event that is not enabled does not happen. `Reset` is the manager writing the set as it
      builds it, without a scan. */
  function After(c: Setting, s: State, e: Event): State {
    if !Enabled(c, s, e) then s
    else match e
      case Begin(st) => s.(op := Scanning(st, s.partition, c.replicas, map[]))
      case LookAtPod(failed) => s.(op := LookNext(c, s.op, s.pods, failed))
      case Write(accepted) => s.(op := Idle, partition := if accepted then s.op.partition else s.partition)
      case Abandon => s.(op := Idle)
      case Move(k, pod) => s.(pods := s.pods[k := pod])
      case Reset(accepted) => if accepted then s.(partition := c.replicas) else s
  }

  function LookNext(c: Setting, op: Op, pods: seq<Pod>, failed: bool): Op
    requires op.Scanning? && op.next <= |pods|
  {
    if op.next == 0 then Writing(op.st, op.base, op.base, op.read)
    else
      var i := op.next - 1;
      var pod := if failed then Unreadable else pods[i];
      match Judge(pod, c.target, Fit(c.spec, op.st, c.m, i), Guarded(c.spec, op.st, c.m, i))
      case Abort => Idle
      case Next => Scanning(op.st, op.base, i, op.read[i := pod])
      case Release => Writing(op.st, op.base, i, op.read[i := pod])
  }

  /** The state after the events, oldest first. */
  function Run(c: Setting, s: State, events: seq<Event>): State {
    if events == [] then s
    else After(c, Run(c, s, events[..|events| - 1]), events[|events| - 1])
  }

  // ----- the invariant -----

  /** Below the partition no pod is updated; above it none is stale. Only the pod at the
      partition can be on its way. */
  ghost predicate PodsInOrder(c: Setting, s: State) {
    && |s.pods| == c.replicas && s.partition <= c.replicas
    && (forall k | 0 <= k < s.partition :: !Updated(s.pods[k], c.target))
    && (forall k | s.partition < k < c.replicas :: !Stale(c, s.pods[k]))
  }

  /** A scan has read every ordinal from `from` on as updated, ready and fit; such pods lie at or
      above the partition, and have not gone stale since. */
  ghost predicate ReadFrom(c: Setting, s: State, st: Status, read: map<nat, Pod>, from: nat)
    requires |s.pods| == c.replicas
  {
    forall i | from <= i < c.replicas ::
      && i in read && Updated(read[i], c.target) && read[i].ready && Fit(c.spec, st, c.m, i)
      && s.partition <= i && !Stale(c, s.pods[i])
  }

  /** What is about to be written: the partition as it was, after a scan that found every pod
      updated; or a stale pod's ordinal, after one that found all higher pods updated. */
  ghost predicate WriteInOrder(c: Setting, s: State, op: Op)
    requires op.Writing? && |s.pods| == c.replicas
  {
    var p := op.partition;
    if p < c.replicas && p in op.read && !Updated(op.read[p], c.target) then
      && op.read[p].Pod? && op.read[p].revision.Some? && !Guarded(c.spec, op.st, c.m, p)
      && s.partition <= p + 1 && p <= s.partition && ReadFrom(c, s, op.st, op.read, p + 1)
    else p == op.base && ReadFrom(c, s, op.st, op.read, 0)
  }

  ghost predicate Inv(c: Setting, s: State) {
    && PodsInOrder(c, s)
    && match s.op
       case Idle => true
       case Scanning(st, base, next, read) =>
         base == s.partition && next <= c.replicas && ReadFrom(c, s, st, read, next)
       case Writing(st, base, p, read) => base == s.partition && WriteInOrder(c, s, s.op)
  }

  ghost predicate Initial(c: Setting, s: State) { s.op.Idle? && PodsInOrder(c, s) }

  lemma {:induction false} LookKeepsInv(c: Setting, s: State, failed: bool)
    requires Inv(c, s) && s.op.Scanning?
    ensures Inv(c, After(c, s, LookAtPod(failed)))
  {
    hide Fit, Guarded;
    if s.op.next > 0 {
      var i := s.op.next - 1;
      assert s.op.next < c.replicas ==> s.op.next in s.op.read;
      assert s.partition <= s.op.next;
      assert Updated(s.pods[i], c.target) ==> s.partition <= i;
      assert Stale(c, s.pods[i]) ==> i <= s.partition;
    }
  }

  lemma {:induction false} MoveKeepsInv(c: Setting, s: State, k: nat, pod: Pod)
    requires Inv(c, s) && k < |s.pods| && ControllerMay(c, s, k, pod)
    ensures Inv(c, s.(pods := s.pods[k := pod]))
  {
    hide Fit, Guarded, Updated;
    var t := s.(pods := s.pods[k := pod]);
    forall i | s.partition <= i < c.replicas && !Stale(c, s.pods[i]) ensures !Stale(c, t.pods[i]) {}
  }

  lemma {:induction false} WriteKeepsInv(c: Setting, s: State, accepted: bool)
    requires Inv(c, s) && s.op.Writing?
    ensures Inv(c, After(c, s, Write(accepted)))
  {
    hide Fit, Guarded, Updated;
  }

  /** A reset that moves the partition. */
  predicate Raises(c: Setting, s: State, e: Event) {
    e.Reset? && e.accepted && s.op.Idle? && s.partition != c.replicas
  }

  lemma {:induction false} StepKeepsInv(c: Setting, s: State, e: Event)
    requires Inv(c, s) && !Raises(c, s, e)
    ensures Inv(c, After(c, s, e))
  {
    hide Fit, Guarded, LookNext, Updated, Stale;
    match e
    case Move(k, pod) => if Enabled(c, s, e) { MoveKeepsInv(c, s, k, pod); }
    case Write(accepted) => if s.op.Writing? { WriteKeepsInv(c, s, accepted); }
    case LookAtPod(failed) => if s.op.Scanning? { LookKeepsInv(c, s, failed); }
    case _ =>
  }

  /** No write but gracefulUpgrade's moves the partition. */
  predicate Unraised(c: Setting, s: State, events: seq<Event>) {
    events == [] ||
    (Unraised(c, s, events[..|events| - 1]) && !Raises(c, Run(c, s, events[..|events| - 1]), events[|events| - 1]))
  }

  lemma {:induction false} RunKeepsInv(c: Setting, s: State, events: seq<Event>)
    requires Initial(c, s) && Unraised(c, s, events)
    ensures Inv(c, Run(c, s, events))
  {
    hide After, PodsInOrder;
    if events != [] {
      RunKeepsInv(c, s, events[..|events| - 1]);
      StepKeepsInv(c, Run(c, s, events[..|events| - 1]), events[|events| - 1]);
    }
  }

  // ----- safety over whole runs -----

  /** The partitions written by lowering steps, oldest first. */
  function Released(c: Setting, s: State, events: seq<Event>): seq<nat> {
    if events == [] then []
    else
      var before := Run(c, s, events[..|events| - 1]);
      var after := After(c, before, events[|events| - 1]);
      Released(c, s, events[..|events| - 1])
      + if after.partition < before.partition then [after.partition] else []
  }

  /** The partition stays, or drops by one to a pod above which this very scan saw every pod
      updated, ready and, for executors, registered. */
  lemma {:induction false} OneStep(c: Setting, s: State, e: Event)
    requires Inv(c, s) && !Raises(c, s, e)
    ensures var p := After(c, s, e).partition;
      || p == s.partition
      || (p == s.partition - 1 && s.op.Writing? && p == s.op.partition
          && forall i | p < i < c.replicas ::
               i in s.op.read && Updated(s.op.read[i], c.target) && s.op.read[i].ready && Fit(c.spec, s.op.st, c.m, i))
  {
    hide Fit, Guarded, Updated, LookNext;
  }

  /** Over every interleaving of the scan with the controller in which no reset raises the
      partition: pods below the partition are not
      updated; of the released ones at most one, the last released, is still stale; and the
      releases were R-1, R-2, ... down to the present partition, each exactly once. */
  lemma {:induction false} RolloutInOrder(c: Setting, s: State, events: seq<Event>)
    requires Initial(c, s) && Unraised(c, s, events)
    ensures var now := Run(c, s, events);
      var released := Released(c, s, events);
      && |now.pods| == c.replicas && now.partition <= s.partition
      && (forall k | 0 <= k < now.partition :: !Updated(now.pods[k], c.target))
      && (forall k | now.partition <= k < c.replicas :: Stale(c, now.pods[k]) ==> k == now.partition)
      && |released| == s.partition - now.partition
      && (forall i | 0 <= i < |released| :: released[i] == s.partition - 1 - i)
  {
    hide After, Inv, Updated;
    RunKeepsInv(c, s, events);
    InvMeansOrder(c, Run(c, s, events));
    if events != [] {
      var front, last := events[..|events| - 1], events[|events| - 1];
      RolloutInOrder(c, s, front);
      RunKeepsInv(c, s, front);
      OneStep(c, Run(c, s, front), last);
    }
  }

  lemma {:induction false} InvMeansOrder(c: Setting, s: State)
    requires Inv(c, s)
    ensures PodsInOrder(c, s)
  {
  }

  /** A reset keeps the order exactly if no released pod was updated yet; otherwise updated pods
      lie below the partition from then on. */
  lemma {:induction false} ResetKeepsOrderExactly(c: Setting, s: State, e: Event)
    requires Inv(c, s) && Raises(c, s, e)
    ensures PodsInOrder(c, After(c, s, e)) <==>
      forall k | s.partition <= k < c.replicas :: !Updated(s.pods[k], c.target)
  {
    hide Updated;
    assert After(c, s, e) == s.(partition := c.replicas);
  }

  // ----- the steps are those of the code -----

  /** The pods as one scan read them, each at its own moment. */
  function Reads(read: map<nat, Pod>): nat -> Pod {
    (i: nat) => if i in read then read[i] else Unreadable
  }

  /** What gracefulUpgrade needs to find before it starts to scan. */
  ghost predicate ScanApplies(c: Setting, st: Status, existing: StsObject, partition: int) {
    && existing.templateEqual && !existing.strategy.onDelete
    && existing.strategy.partition == Some(partition) && existing.replicas == c.replicas
    && !st.Of(c.m).Scaling() && st.Of(c.m).sts.Some?
    && st.Of(c.m).sts.value.updateRevision == c.target != st.Of(c.m).sts.value.currentRevision
  }

  /** The status a scan works with differs from the recorded one only where it does not look. */
  lemma {:induction false} UpgradeScans(c: Setting, st: Status, existing: StsObject, d: Desired, pods: nat -> Pod,
      now: int, partition: int)
    requires ScanApplies(c, st, existing, partition)
    ensures var r := GracefulUpgrade(c.spec, st, c.m, existing, d, pods, now);
      match Scan(c.spec, st, c.m, c.target, pods, c.replicas)
      case Stopped => r.outcome == OtherErr
      case ReleaseAt(i) => r.outcome == Done && r.desired.strategy.partition == Some(i)
      case AllUpdated => r.outcome == Done && r.desired.strategy.partition == Some(partition)
  {
    hide Scan, Conditions.Set, SyncEntries.SetStatus;
    var s := Mark(SetCondition(st, Conditions.SyncChecked(c.m), false, now), c.m, UpgradeType, Ongoing);
    s := SetPhase(s, c.m, Upgrading);
    assert s.Of(c.m).sts == st.Of(c.m).sts;
    SameScan(c, st, s, pods, c.replicas);
  }

  lemma {:induction false} SameScan(c: Setting, st: Status, s: Status, pods: nat -> Pod, n: nat)
    requires s.leader == st.leader && s.executor.members == st.executor.members && s.master.sts == st.master.sts
    ensures Scan(c.spec, s, c.m, c.target, pods, n) == Scan(c.spec, st, c.m, c.target, pods, n)
  {
    hide Look;
    if n > 0 {
      SameScan(c, st, s, pods, n - 1);
      SameLook(c, st, s, pods, n - 1);
    }
  }

  lemma {:induction false} SameLook(c: Setting, st: Status, s: Status, pods: nat -> Pod, i: nat)
    requires s.leader == st.leader && s.executor.members == st.executor.members && s.master.sts == st.master.sts
    ensures Look(c.spec, s, c.m, c.target, pods, i) == Look(c.spec, st, c.m, c.target, pods, i)
  {
    hide Judge;
    assert Fit(c.spec, s, c.m, i) == Fit(c.spec, st, c.m, i);
    assert Guarded(c.spec, s, c.m, i) == Guarded(c.spec, st, c.m, i);
  }

  /** What the protocol is about to write, at any moment of any run, is what the code computes
      from the pods as they were read. */
  lemma {:induction false} WritesWhatTheCodeWrites(c: Setting, s: State, existing: StsObject, d: Desired, now: int)
    requires Inv(c, s) && s.op.Writing? && ScanApplies(c, s.op.st, existing, s.op.base)
    ensures var r := GracefulUpgrade(c.spec, s.op.st, c.m, existing, d, Reads(s.op.read), now);
      r.outcome == Done && r.desired.strategy.partition == Some(s.op.partition)
  {
    hide Scan, Fit, Guarded, GracefulUpgrade;
    var p, pods := s.op.partition, Reads(s.op.read);
    UpgradeScans(c, s.op.st, existing, d, pods, now, s.op.base);
    ScanMeaning(c.spec, s.op.st, c.m, c.target, pods, c.replicas, p);
  }

  /** A rollout starts at the replica count: the reconcile that brings a new template writes that
      partition, so while every pod is still an old one the protocol above can begin. */
  lemma {:induction false} RolloutStarts(c: Setting, st: Status, existing: StsObject, pods: nat -> Pod, now: int,
      s: State)
    requires c.spec.Of(c.m).Some? && c.spec.Of(c.m).value.replicas == c.replicas
    requires !c.spec.Of(c.m).value.onDelete && !existing.templateEqual && !st.Of(c.m).Scaling()
    requires s.op.Idle? && |s.pods| == c.replicas && forall k | 0 <= k < c.replicas :: !Updated(s.pods[k], c.target)
    ensures var r := GracefulUpgrade(c.spec, st, c.m, existing, Managers.NewSet(c.spec, st, c.m), pods, now);
      && r.outcome == Done && !r.desired.keepTemplate
      && r.desired.strategy.partition == Some(c.replicas)
      && (s.partition == c.replicas ==> Initial(c, s))
  {
    hide Scan, Conditions.Set, SyncEntries.SetStatus;
  }

  /** The pods as one undisturbed scan reads them. */
  function PodAt(pods: seq<Pod>): nat -> Pod {
    (i: nat) => if i < |pods| then pods[i] else Unreadable
  }

  function Looks(n: nat): seq<Event> { seq(n, _ => LookAtPod(false)) }

  lemma {:induction false} RunSplit(c: Setting, s: State, a: seq<Event>, b: seq<Event>)
    ensures Run(c, s, a + b) == Run(c, Run(c, s, a), b)
  {
    hide After;
    if b == [] {
      assert a + b == a;
    } else {
      assert (a + b)[..|a + b| - 1] == a + b[..|b| - 1];
      RunSplit(c, s, a, b[..|b| - 1]);
    }
  }

  lemma {:induction false} LooksSplit(c: Setting, s: State, n: nat)
    requires n > 0
    ensures Run(c, s, Looks(n)) == Run(c, After(c, s, LookAtPod(false)), Looks(n - 1))
  {
    hide After;
    assert Looks(n) == [LookAtPod(false)] + Looks(n - 1);
    RunSplit(c, s, [LookAtPod(false)], Looks(n - 1));
    RunOne(c, s, LookAtPod(false));
  }

  /** How many looks a scan takes, by its result. */
  predicate ScanTakes(r: Scanned, next: nat, n: nat) {
    match r
    case Stopped => n <= next
    case ReleaseAt(i) => i < next && n == next - i
    case AllUpdated => n == next + 1
  }

  /** Every scan of the code is a run of the protocol: where the walk stops the protocol is idle,
      where it releases or finds all updated the protocol is about to write just that. */
  lemma {:induction false} ScanIsRun(c: Setting, s: State) returns (n: nat)
    requires s.op.Scanning? && s.op.next <= |s.pods|
    ensures var r := Scan(c.spec, s.op.st, c.m, c.target, PodAt(s.pods), s.op.next);
      var now := Run(c, s, Looks(n));
      && ScanTakes(r, s.op.next, n) && now == s.(op := now.op)
      && match r
         case Stopped => now.op == Idle
         case ReleaseAt(i) => now.op.Writing? && now.op.partition == i
         case AllUpdated => now.op.Writing? && now.op.partition == s.op.base
    decreases s.op.next
  {
    hide Fit, Guarded, Judge;
    var after := After(c, s, LookAtPod(false));
    assert Run(c, after, Looks(0)) == after;
    if s.op.next > 0 && after.op.Scanning? {
      n := ScanIsRun(c, after);
      n := n + 1;
    } else {
      n := 1;
    }
    LooksSplit(c, s, n);
  }

  // ----- progress -----

  /** What one round meets: the status its scan works with, and the pod that the controller makes
      of the released one. */
  datatype Turn = Turn(st: Status, pod: Pod)

  /** One undisturbed round at partition `p`: scan, write, and the released pod comes back. */
  function Round(c: Setting, turn: Turn, p: nat): seq<Event>
    requires 0 < p <= c.replicas
  {
    [Begin(turn.st)] + Looks(c.replicas - p + 1) + [Write(true), Move(p - 1, turn.pod)]
  }

  function Rounds(c: Setting, turns: seq<Turn>): seq<Event>
    requires |turns| <= c.replicas
  {
    if turns == [] then []
    else Rounds(c, turns[..|turns| - 1]) + Round(c, turns[|turns| - 1], c.replicas - (|turns| - 1))
  }

  /** The released pod becomes updated and ready; those released before have registered, and the
      next one is not held back. */
  ghost predicate ErrorFree(c: Setting, turn: Turn, p: nat)
    requires 0 < p <= c.replicas
  {
    && turn.st.Of(c.m).sts.Some? && turn.st.Of(c.m).sts.value.updateRevision == c.target
    && Updated(turn.pod, c.target) && turn.pod.ready
    && !Guarded(c.spec, turn.st, c.m, p - 1)
    && forall i: nat | p <= i < c.replicas :: Fit(c.spec, turn.st, c.m, i)
  }

  /** Every pod runs the old revision. */
  predicate AllOld(c: Setting, s: State) {
    && s.op.Idle? && s.partition == |s.pods| == c.replicas
    && forall k | 0 <= k < c.replicas ::
         s.pods[k].Pod? && s.pods[k].revision.Some? && !Updated(s.pods[k], c.target)
  }

  /** After `n` rounds: the top n pods are updated and ready, the others as they were. */
  ghost predicate RolledTo(c: Setting, s: State, now: State, p: nat) {
    && now.op.Idle? && now.partition == p && |now.pods| == c.replicas && p <= c.replicas == |s.pods|
    && (forall k | 0 <= k < p :: now.pods[k] == s.pods[k])
    && (forall k | p <= k < c.replicas :: Updated(now.pods[k], c.target) && now.pods[k].ready)
  }

  lemma {:induction false} RoundScans(c: Setting, s: State, now: State, turn: Turn, p: nat)
    requires AllOld(c, s) && 0 < p <= c.replicas && RolledTo(c, s, now, p) && ErrorFree(c, turn, p)
    ensures Scan(c.spec, turn.st, c.m, c.target, PodAt(now.pods), c.replicas) == ReleaseAt(p - 1)
    ensures Stale(c, now.pods[p - 1])
  {
    hide Fit, Guarded, Scan;
    ScanMeaning(c.spec, turn.st, c.m, c.target, PodAt(now.pods), c.replicas, p - 1);
  }

  lemma {:induction false} RoundReleases(c: Setting, s: State, now: State, turn: Turn, p: nat)
    requires AllOld(c, s) && 0 < p <= c.replicas && RolledTo(c, s, now, p) && ErrorFree(c, turn, p)
    ensures RolledTo(c, s, Run(c, now, Round(c, turn, p)), p - 1)
  {
    RoundScans(c, s, now, turn, p);
    RoundRuns(c, now, turn, p);
  }

  lemma {:induction false} RoundRuns(c: Setting, now: State, turn: Turn, p: nat)
    requires now.op.Idle? && now.partition == p && |now.pods| == c.replicas && 0 < p <= c.replicas
    requires Scan(c.spec, turn.st, c.m, c.target, PodAt(now.pods), c.replicas) == ReleaseAt(p - 1)
    requires Stale(c, now.pods[p - 1])
    requires turn.st.Of(c.m).sts.Some? && turn.st.Of(c.m).sts.value.updateRevision == c.target
    requires Updated(turn.pod, c.target)
    ensures Run(c, now, Round(c, turn, p)) == State(p - 1, now.pods[p - 1 := turn.pod], Idle)
  {
    hide Fit, Guarded, Scan, Updated, Run;
    var begun := now.(op := Scanning(turn.st, p, c.replicas, map[]));
    var n := ScanIsRun(c, begun);
    var begin, rest := [Begin(turn.st)], [Write(true), Move(p - 1, turn.pod)];
    assert Round(c, turn, p) == begin + (Looks(n) + rest);
    RunSplit(c, now, begin, Looks(n) + rest);
    RunSplit(c, begun, Looks(n), rest);
    RunOne(c, now, Begin(turn.st));
    WriteAndMove(c, Run(c, begun, Looks(n)), p - 1, turn.pod);
  }

  lemma {:induction false} RunOne(c: Setting, s: State, e: Event)
    ensures Run(c, s, [e]) == After(c, s, e)
  {
    hide After;
    assert [e][..0] == [];
  }

  lemma {:induction false} WriteAndMove(c: Setting, s: State, p: nat, pod: Pod)
    requires s.op.Writing? && s.op.partition == p < |s.pods| && Updated(pod, c.target)
    requires Stale(c, s.pods[p])
    ensures Run(c, s, [Write(true), Move(p, pod)]) == State(p, s.pods[p := pod], Idle)
  {
    var write, move := Write(true), Move(p, pod);
    assert [write, move] == [write] + [move];
    RunSplit(c, s, [write], [move]);
    RunOne(c, s, write);
    RunOne(c, After(c, s, write), move);
  }

  lemma {:induction false} WithoutResets(c: Setting, s: State, events: seq<Event>)
    requires forall i | 0 <= i < |events| :: !events[i].Reset?
    ensures Unraised(c, s, events)
  {
    hide Run;
    if events != [] { WithoutResets(c, s, events[..|events| - 1]); }
  }

  lemma {:induction false} RoundsHaveNoResets(c: Setting, turns: seq<Turn>)
    requires |turns| <= c.replicas
    ensures forall i | 0 <= i < |Rounds(c, turns)| :: !Rounds(c, turns)[i].Reset?
  {
    if turns != [] { RoundsHaveNoResets(c, turns[..|turns| - 1]); }
  }

  lemma {:induction false} RoundsRoll(c: Setting, s: State, turns: seq<Turn>)
    requires AllOld(c, s) && |turns| <= c.replicas
    requires forall i | 0 <= i < |turns| :: ErrorFree(c, turns[i], c.replicas - i)
    ensures RolledTo(c, s, Run(c, s, Rounds(c, turns)), c.replicas - |turns|)
  {
    hide ErrorFree, RolledTo, Round;
    if turns == [] {
      NothingRolled(c, s);
    } else {
      var n := |turns| - 1;
      RoundsRoll(c, s, turns[..n]);
      RunSplit(c, s, Rounds(c, turns[..n]), Round(c, turns[n], c.replicas - n));
      RoundReleases(c, s, Run(c, s, Rounds(c, turns[..n])), turns[n], c.replicas - n);
    }
  }

  lemma {:induction false} NothingRolled(c: Setting, s: State)
    requires AllOld(c, s)
    ensures RolledTo(c, s, s, c.replicas)
  {
  }

  /** The protocol finishes: from old pods only, as many error-free rounds as there are pods bring
      the partition to 0 and every pod to the new revision, having released R-1, R-2, ..., 0; after
      fewer rounds exactly the pods released so far are updated. */
  lemma {:induction false} RolloutFinishes(c: Setting, s: State, turns: seq<Turn>)
    requires AllOld(c, s) && |turns| <= c.replicas
    requires forall i | 0 <= i < |turns| :: ErrorFree(c, turns[i], c.replicas - i)
    ensures var now := Run(c, s, Rounds(c, turns));
      var released := Released(c, s, Rounds(c, turns));
      && now.partition == c.replicas - |turns| && |now.pods| == c.replicas
      && (forall k | 0 <= k < c.replicas :: Updated(now.pods[k], c.target) <==> now.partition <= k)
      && |released| == |turns| && (forall i | 0 <= i < |released| :: released[i] == c.replicas - 1 - i)
  {
    hide ErrorFree, Rounds, Run, Released, Updated;
    RoundsRoll(c, s, turns);
    RoundsHaveNoResets(c, turns);
    WithoutResets(c, s, Rounds(c, turns));
    RolloutInOrder(c, s, Rounds(c, turns));
  }

  /** So a reset that is accepted once some round is through breaks the order: the partition is
      back at the replica count, above every pod updated so far. */
  lemma {:induction false} ResetAfterRounds(c: Setting, s: State, turns: seq<Turn>)
    requires AllOld(c, s) && 0 < |turns| <= c.replicas
    requires forall i | 0 <= i < |turns| :: ErrorFree(c, turns[i], c.replicas - i)
    ensures var now := Run(c, s, Rounds(c, turns) + [Reset(true)]);
      && now.partition == c.replicas == |now.pods|
      && (forall k | 0 <= k < c.replicas :: Updated(now.pods[k], c.target) <==> c.replicas - |turns| <= k)
      && !PodsInOrder(c, now)
  {
    hide ErrorFree, Rounds, Run, Released, Updated;
    RolloutFinishes(c, s, turns);
    RoundsRoll(c, s, turns);
    var now := Run(c, s, Rounds(c, turns));
    RunSplit(c, s, Rounds(c, turns), [Reset(true)]);
    RunOne(c, now, Reset(true));
    assert Updated(now.pods[c.replicas - 1], c.target);
  }
}
