/** One reconcile, from the persisted status to the status it tries to persist, and runs of
    reconciles under arbitrary answers. */
module Reconciling {
  import opened Api
  import opened Clusters
  import Managers
  import Verification
  import PhaseSync

  /** Everything that one reconcile learns from outside. `stored` says whether the final status
      update reached the API server, `fetched` whether the object could be read at all. */
  datatype Answers = Answers(
    fetched: bool, masterManager: Managers.Answers, executorManager: Managers.Answers,
    masterCheck: Verification.Answers, executorCheck: Verification.Answers,
    masterPhase: PhaseSync.Answers, executorPhase: PhaseSync.Answers, stored: bool)
  {
    function Manager(m: Member): Managers.Answers { if m.Master? then masterManager else executorManager }
    function Check(m: Member): Verification.Answers { if m.Master? then masterCheck else executorCheck }
    function Phase(m: Member): PhaseSync.Answers { if m.Master? then masterPhase else executorPhase }
  }

  /** The control loop's result, with its history: what the managers did, and whether condition
      Sync got as far as Apply. */
  datatype Pass = Pass(
    status: Status, outcome: Outcome, applied: bool, master: Managers.Effect, executor: Managers.Effect)
  {
    function Effect(m: Member): Managers.Effect { if m.Master? then master else executor }
  }

  /** UpdateTiflowCluster: the master's manager, the executor's, then condition Sync; the first
      error ends it. */
  function Control(spec: Spec, st: Status, a: Answers, now: int): Pass {
    var r := Managers.Sync(spec, st, Master, a.masterManager, now);
    if r.outcome != Done then Pass(r.status, r.outcome, false, r.effect, Managers.NoEffect)
    else
      var e := Managers.Sync(spec, r.status, Executor, a.executorManager, now);
      if e.outcome != Done then Pass(e.status, e.outcome, false, r.effect, e.effect)
      else
        var v := Verification.ConditionSync(spec, e.status, a.masterCheck, a.executorCheck, now);
        Pass(v.status, v.outcome, v.outcome == Done, r.effect, e.effect)
  }

  /** The status that a reconcile hands to the API server, on success and on error alike; None
      when it crashed. The first reconcile only initialises. */
  function Written(spec: Spec, st: Status, a: Answers, now: int): Option<Status> {
    if st.clusterPhase == ClusterUnset then Some(PhaseSync.FirstReconcile(st))
    else
      var p := Control(spec, st, a, now);
      if p.outcome == Panic then None
      else PhaseSync.SyncClusterPhase(spec, p.status, a.masterPhase, a.executorPhase)
  }

  predicate Stores(spec: Spec, st: Status, a: Answers, now: int) {
    a.fetched && a.stored && Written(spec, st, a, now).Some?
  }

  /** The persisted status after a reconcile. */
  function Next(spec: Spec, st: Status, a: Answers, now: int): Status {
    if Stores(spec, st, a, now) then Written(spec, st, a, now).value else st
  }

  method Reconcile(spec: Spec, persisted: Status, a: Answers, now: int) returns (result: Status)
    ensures result == Next(spec, persisted, a, now)
  {
    hide Managers.Sync, Verification.ConditionSync, PhaseSync.SyncClusterPhase;
    if !a.fetched { return persisted; }
    var tc := new Cluster(spec, persisted);
    if tc.status.clusterPhase == ClusterUnset {
      tc.status := PhaseSync.FirstReconcile(tc.status);
      return if a.stored then tc.status else persisted;
    }
    var outcome := RunControl(tc, a, now);
    if outcome == Panic { return persisted; }
    var crashed := PhaseSync.SyncTiflowClusterPhase(tc, a.masterPhase, a.executorPhase);
    if crashed || !a.stored { return persisted; }
    return tc.status;
  }

  method RunControl(tc: Cluster, a: Answers, now: int) returns (outcome: Outcome)
    modifies tc
    ensures var p := Control(tc.spec, old(tc.status), a, now);
      tc.status == p.status && outcome == p.outcome
  {
    hide Managers.Sync, Verification.ConditionSync;
    var effect;
    outcome, effect := Managers.RunSync(tc, Master, a.masterManager, now);
    if outcome != Done { return; }
    outcome, effect := Managers.RunSync(tc, Executor, a.executorManager, now);
    if outcome != Done { return; }
    outcome := Verification.Sync(tc, a.masterCheck, a.executorCheck, now);
  }

  /** The first error ends a pass: after an error of the master's manager nothing of the executor
      is touched, and Apply is reached only when both managers and both checks succeeded. */
  lemma {:induction false} FirstErrorEndsPass(spec: Spec, st: Status, a: Answers, now: int)
    ensures var p := Control(spec, st, a, now);
      var r := Managers.Sync(spec, st, Master, a.masterManager, now);
      var e := Managers.Sync(spec, r.status, Executor, a.executorManager, now);
      var v := Verification.Verify(spec, e.status, Master, a.masterCheck, now);
      && (r.outcome != Done ==>
            p.outcome == r.outcome && p.executor == Managers.NoEffect && p.status.executor == st.executor)
      && (p.applied <==>
            && r.outcome == Done && e.outcome == Done && v.outcome == Done
            && Verification.Verify(spec, v.status, Executor, a.executorCheck, now).outcome == Done)
  {
    hide Managers.Sync, Managers.Guarded, Verification.Verify, Verification.Apply;
    Managers.SyncIsGuarded(spec, st, Master, a.masterManager, now);
    LocalToMaster(st, Managers.Sync(spec, st, Master, a.masterManager, now).status);
  }

  lemma {:induction false} LocalToMaster(st: Status, s: Status)
    requires Managers.Guarded(st, s, Master)
    ensures s.executor == st.executor
  {
  }

  // ----- runs -----

  datatype Event = Event(spec: Spec, answers: Answers, now: int)

  function Step(st: Status, e: Event): Status { Next(e.spec, st, e.answers, e.now) }

  /** The persisted status after the events, oldest first. */
  function Run(st: Status, events: seq<Event>): Status {
    if events == [] then st
    else Step(Run(st, events[..|events| - 1]), events[|events| - 1])
  }

  /** Which parts of the specification stay for a whole run; replicas, templates and the
      force-upgrade annotation may change with every event. */
  datatype Layout = Layout(heterogeneous: bool, hasMaster: bool, hasExecutor: bool) {
    predicate Has(m: Member) { if m.Master? then hasMaster else hasExecutor }

    predicate Fits(spec: Spec) {
      spec.heterogeneous == heterogeneous && spec.master.Some? == hasMaster && spec.executor.Some? == hasExecutor
    }
  }

  ghost predicate Under(layout: Layout, events: seq<Event>) {
    forall i | 0 <= i < |events| :: layout.Fits(events[i].spec)
  }
}
