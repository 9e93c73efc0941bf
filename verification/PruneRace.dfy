/** pvcsToRemove against the rest of the world: claims come and go, the watcher cancels, and
    each deletion carries the identity seen in the list as its precondition. */
module PruneRace {
  import Api
  import opened Pruning

  /** The candidates in list order, and the replica count that the list was made for. */
  datatype Setting = Setting(candidates: seq<Pvc>, replicas: nat)

  datatype Identity = Identity(uid: string, version: string)

  datatype Pc = Checking(next: nat) | Deleting(next: nat) | Finished(ok: bool)

  /** `deleted` records the objects that the pruner's requests removed, oldest first. */
  datatype State = State(store: map<string, Identity>, cancelled: bool, pc: Pc, deleted: seq<Pvc>)

  /** A StatefulSet as a watch event carries it, or some other object. */
  datatype Watched = Set(replicas: Api.Option<nat>) | NotASet

  datatype Reply = Accepted | Refused | Lost

  datatype Event =
    | Change(name: string, claim: Api.Option<Identity>)
    | Modified(seen: Watched)
    | Unexpected
    | Expire
    | Check
    | Delete(reply: Reply)

  /** The watcher cancels on a change of the replica count and on anything that is not a
      modification; `Expire` is the caller's own cancellation. */
  predicate Cancels(c: Setting, e: Event) {
    match e
    case Modified(seen) => seen.Set? && seen.replicas != Api.Some(c.replicas)
    case Unexpected => true
    case Expire => true
    case _ => false
  }

  function Put(store: map<string, Identity>, name: string, claim: Api.Option<Identity>): map<string, Identity> {
    match claim
    case Some(id) => store[name := id]
    case None => store - {name}
  }

  /** The API server deletes only what still has the listed UID and resource version. A lost
      reply looks like a refusal, but the object is gone. */
  function TryDelete(c: Setting, s: State, reply: Reply): State
    requires s.pc.Deleting? && s.pc.next < |c.candidates|
  {
    var it := c.candidates[s.pc.next];
    if it.name in s.store && s.store[it.name].uid == it.uid && s.store[it.name].version == it.version
        && reply != Refused then
      s.(store := s.store - {it.name},
         deleted := s.deleted + [Pvc(it.name, s.store[it.name].uid, s.store[it.name].version)],
         pc := if reply == Accepted then Checking(s.pc.next + 1) else Finished(false))
    else s.(pc := Finished(false))
  }

  function After(c: Setting, s: State, e: Event): State {
    match e
    case Change(name, claim) => s.(store := Put(s.store, name, claim))
    case Check =>
      if !s.pc.Checking? then s
      else if s.pc.next >= |c.candidates| then s.(pc := Finished(true))
      else if s.cancelled then s.(pc := Finished(false))
      else s.(pc := Deleting(s.pc.next))
    case Delete(reply) =>
      if s.pc.Deleting? && s.pc.next < |c.candidates| then TryDelete(c, s, reply) else s
    case _ => s.(cancelled := s.cancelled || Cancels(c, e))
  }

  function Run(c: Setting, s: State, events: seq<Event>): State {
    if events == [] then s
    else After(c, Run(c, s, events[..|events| - 1]), events[|events| - 1])
  }

  function Start(store: map<string, Identity>): State { State(store, false, Checking(0), []) }

  /** The claims as the others alone would have left them. */
  function WithoutPruner(store: map<string, Identity>, events: seq<Event>): map<string, Identity> {
    if events == [] then store
    else
      var before := WithoutPruner(store, events[..|events| - 1]);
      var e := events[|events| - 1];
      if e.Change? then Put(before, e.name, e.claim) else before
  }

  ghost predicate OnlyDeletedMissing(store: map<string, Identity>, others: map<string, Identity>, deleted: seq<Pvc>) {
    && (forall n | n in store :: n in others && store[n] == others[n])
    && (forall n | n in others && n !in store :: Pvc(n, others[n].uid, others[n].version) in deleted)
  }

  /** The deleted objects are the first candidates, identity by identity. */
  ghost predicate Prefix(c: Setting, s: State) {
    && |s.deleted| <= |c.candidates| && s.deleted == c.candidates[..|s.deleted|]
    && match s.pc
       case Checking(n) => n == |s.deleted|
       case Deleting(n) => n == |s.deleted| < |c.candidates|
       case Finished(ok) => ok ==> |s.deleted| == |c.candidates|
  }

  lemma {:induction false} StepKeepsPrefix(c: Setting, s: State, e: Event)
    requires Prefix(c, s)
    ensures Prefix(c, After(c, s, e))
    ensures After(c, s, e).deleted == s.deleted
         || (s.pc.Deleting? && After(c, s, e).deleted == s.deleted + [c.candidates[s.pc.next]])
  {
    hide Put;
  }

  lemma {:induction false} StepKeepsOthers(c: Setting, s: State, e: Event, others: map<string, Identity>)
    requires Prefix(c, s) && OnlyDeletedMissing(s.store, others, s.deleted)
    ensures OnlyDeletedMissing(After(c, s, e).store, if e.Change? then Put(others, e.name, e.claim) else others,
                               After(c, s, e).deleted)
  {
    hide Prefix;
    var t := After(c, s, e);
    forall x | x in s.deleted ensures x in t.deleted {}
    if e.Delete? && s.pc.Deleting? && s.pc.next < |c.candidates| && t.deleted != s.deleted {
      assert t.deleted[|t.deleted| - 1] in t.deleted;
    }
  }

  /** Whatever happens in between: the objects that the pruner removes form a prefix of the
      candidate list, each with the UID and resource version that were listed, so a claim made
      anew under the same name survives; nothing else about any claim is changed by the pruner;
      and success means that the whole list went. */
  lemma {:induction false} OnlyListedClaimsGo(c: Setting, store: map<string, Identity>, events: seq<Event>)
    ensures var s := Run(c, Start(store), events);
      && Prefix(c, s)
      && OnlyDeletedMissing(s.store, WithoutPruner(store, events), s.deleted)
  {
    hide Prefix, OnlyDeletedMissing, After;
    if events == [] {
      NothingDeleted(c, store);
    } else {
      var front, last := events[..|events| - 1], events[|events| - 1];
      OnlyListedClaimsGo(c, store, front);
      StepKeepsPrefix(c, Run(c, Start(store), front), last);
      StepKeepsOthers(c, Run(c, Start(store), front), last, WithoutPruner(store, front));
    }
  }

  lemma {:induction false} NothingDeleted(c: Setting, store: map<string, Identity>)
    ensures Prefix(c, Start(store)) && OnlyDeletedMissing(store, store, [])
  {
  }

  /** Once cancelled, at most the deletion whose check came before still takes effect. */
  lemma {:induction false} NoDeletionAfterCancel(c: Setting, s: State, events: seq<Event>)
    requires s.cancelled && Prefix(c, s)
    ensures var t := Run(c, s, events);
      && t.cancelled && Prefix(c, t)
      && |t.deleted| + (if t.pc.Deleting? then 1 else 0) <= |s.deleted| + (if s.pc.Deleting? then 1 else 0)
  {
    hide Prefix, Put;
    if events != [] {
      var front, last := events[..|events| - 1], events[|events| - 1];
      NoDeletionAfterCancel(c, s, front);
      StepKeepsPrefix(c, Run(c, s, front), last);
    }
  }

  /** The pruner is cancelled by exactly the events that mean it should be. */
  lemma {:induction false} CancelledExactly(c: Setting, store: map<string, Identity>, events: seq<Event>)
    ensures Run(c, Start(store), events).cancelled <==> exists i | 0 <= i < |events| :: Cancels(c, events[i])
  {
    hide Put, Cancels;
    if events != [] {
      var front, last := events[..|events| - 1], events[|events| - 1];
      CancelledExactly(c, store, front);
      CancelStep(c, Run(c, Start(store), front), last);
      if i :| 0 <= i < |front| && Cancels(c, front[i]) {
        assert Cancels(c, events[i]);
      }
      if i :| 0 <= i < |events| && Cancels(c, events[i]) {
        assert i < |front| ==> Cancels(c, front[i]);
      }
    }
  }

  lemma {:induction false} CancelStep(c: Setting, s: State, e: Event)
    ensures After(c, s, e).cancelled <==> s.cancelled || Cancels(c, e)
  {
    hide Put;
  }

  /** From listing to deletion: with the candidates that findPVCDeletable returned, no run of the
      pruner touches a claim in use. */
  lemma {:induction false} ClaimsInUseAreSafe(c: Setting, store: map<string, Identity>, events: seq<Event>,
                           templates: seq<string>, sts: string, name: string)
    requires forall i | 0 <= i < |c.candidates| :: Deletable(c.candidates[i].name, templates, sts, c.replicas)
    requires InUse(name, templates, sts, c.replicas)
    ensures var now, others := Run(c, Start(store), events).store, WithoutPruner(store, events);
      (name in now <==> name in others) && (name in now ==> now[name] == others[name])
  {
    hide InUse, Run, WithoutPruner, Provisioned;
    OnlyListedClaimsGo(c, store, events);
    var s := Run(c, Start(store), events);
    assert forall x | x in s.deleted :: x in c.candidates;
  }
}
