/** The split of reported members into this cluster's own and its peers, and the counting check
    that stands in for "every pod has registered". */
module Members {
  import opened Api
  import opened Names
  import opened NameParsing

  datatype Identity = Identity(cluster: string, namespace: string, m: Member)

  predicate Accepts(id: Identity, desired: nat, name: string) {
    var p := ParseName(name, id.m);
    p.Some? && p.value.cluster == id.cluster && p.value.namespace == id.namespace && p.value.ordinal < desired
  }

  /** The reports that are accepted, or those that are not, by name; a later report replaces an
      earlier one. */
  function Collect(id: Identity, desired: nat, infos: seq<MemberInfo>, own: bool): (r: map<string, MemberInfo>)
    ensures forall name :: name in r <==> Accepts(id, desired, name) == own && Registered(infos, name)
    ensures forall name | name in r :: r[name].name == name && r[name] in infos
  {
    if infos == [] then map[]
    else
      var last := infos[|infos| - 1];
      var rest := Collect(id, desired, infos[..|infos| - 1], own);
      RegisteredOneMore(infos);
      if Accepts(id, desired, last.name) == own then rest[last.name := last] else rest
  }

  ghost predicate Registered(infos: seq<MemberInfo>, name: string) {
    exists i | 0 <= i < |infos| :: infos[i].name == name
  }

  lemma {:induction false} RegisteredOneMore(infos: seq<MemberInfo>)
    requires infos != []
    ensures forall name :: Registered(infos, name) <==>
      name == infos[|infos| - 1].name || Registered(infos[..|infos| - 1], name)
  {
    var front := infos[..|infos| - 1];
    forall name | Registered(front, name) ensures Registered(infos, name) {
      var i :| 0 <= i < |front| && front[i].name == name;
      assert infos[i].name == name;
    }
    forall name | Registered(infos, name)
      ensures name == infos[|infos| - 1].name || Registered(front, name)
    {
      var i :| 0 <= i < |infos| && infos[i].name == name;
      if i < |front| { assert front[i].name == name; }
    }
  }

  function OwnMembers(id: Identity, desired: nat, infos: seq<MemberInfo>): map<string, MemberInfo> {
    Collect(id, desired, infos, true)
  }

  function PeerMembers(id: Identity, desired: nat, infos: seq<MemberInfo>): map<string, MemberInfo> {
    Collect(id, desired, infos, false)
  }

  /** Every reported member ends up in exactly one of the two maps. */
  method UpdateMembersInfo(id: Identity, desired: nat, infos: seq<MemberInfo>)
    returns (members: map<string, MemberInfo>, peers: map<string, MemberInfo>)
    ensures members == OwnMembers(id, desired, infos)
    ensures peers == PeerMembers(id, desired, infos)
    ensures members.Keys !! peers.Keys
    ensures forall name :: Registered(infos, name) <==> name in members || name in peers
  {
    hide ParseName;
    members, peers := map[], map[];
    for i := 0 to |infos|
      invariant members == OwnMembers(id, desired, infos[..i])
      invariant peers == PeerMembers(id, desired, infos[..i])
    {
      assert infos[..i + 1][..i] == infos[..i];
      var e := infos[i];
      var parsed := ParseName(e.name, id.m);
      if parsed.Some? && parsed.value.cluster == id.cluster && parsed.value.namespace == id.namespace
         && parsed.value.ordinal < desired {
        assert Accepts(id, desired, e.name);
        members := members[e.name := e];
      } else {
        assert !Accepts(id, desired, e.name);
        peers := peers[e.name := e];
      }
    }
    assert infos[..|infos|] == infos;
  }

  // ----- what the count says -----

  function NameOf(id: Identity, ordinal: nat): string {
    RegisteredName(id.cluster, id.m, ordinal, id.namespace)
  }

  lemma {:induction false} NamesDiffer(id: Identity, n: nat)
    ensures forall o: nat | o < n :: NameOf(id, o) != NameOf(id, n)
  {
    forall o: nat | NameOf(id, o) == NameOf(id, n) ensures o == n {
      RegisteredNameInjective(id.cluster, id.m, o, n, id.namespace);
    }
  }

  /** The names of the pods 0 to desired-1. */
  function PodNames(id: Identity, desired: nat): set<string> {
    set o: nat | o < desired :: NameOf(id, o)
  }

  lemma {:induction false} PodNamesSize(id: Identity, desired: nat)
    ensures |PodNames(id, desired)| == desired
  {
    hide NameOf;
    if desired > 0 {
      PodNamesSize(id, desired - 1);
      NamesDiffer(id, desired - 1);
      assert PodNames(id, desired) == PodNames(id, desired - 1) + {NameOf(id, desired - 1)};
    }
  }

  ghost predicate AllRegistered(id: Identity, desired: nat, infos: seq<MemberInfo>) {
    forall o: nat | o < desired :: Registered(infos, NameOf(id, o))
  }

  predicate PlainIdentity(id: Identity) {
    NewlineFree(id.cluster) && NewlineFree(id.namespace) && NoHit(id.namespace)
  }

  lemma {:induction false} RegisteredPodsAreMembers(id: Identity, desired: nat, infos: seq<MemberInfo>, o: nat)
    requires PlainIdentity(id) && o < desired <= MAX_INT32
    ensures Registered(infos, NameOf(id, o)) <==> NameOf(id, o) in OwnMembers(id, desired, infos)
  {
    NameRoundTrip(id.cluster, id.m, o, id.namespace);
    assert Accepts(id, desired, NameOf(id, o));
  }

  lemma {:induction false} AllRegisteredIsCoverage(id: Identity, desired: nat, infos: seq<MemberInfo>)
    requires PlainIdentity(id) && desired <= MAX_INT32
    ensures AllRegistered(id, desired, infos) <==>
      PodNames(id, desired) <= OwnMembers(id, desired, infos).Keys
  {
    hide OwnMembers, Registered, NameOf;
    var keys := OwnMembers(id, desired, infos).Keys;
    forall o: nat | o < desired
      ensures Registered(infos, NameOf(id, o)) <==> NameOf(id, o) in keys
    {
      RegisteredPodsAreMembers(id, desired, infos, o);
    }
    forall o: nat | o < desired ensures NameOf(id, o) in PodNames(id, desired) {}
  }

  /** Members whose name no pod of this set prints, though the parser accepts it. */
  ghost function Impostors(id: Identity, desired: nat, infos: seq<MemberInfo>): set<string> {
    OwnMembers(id, desired, infos).Keys - PodNames(id, desired)
  }

  /** Without impostors there are never more members than desired, and the count is met exactly
      when every ordinal has registered. With one the two never hold together. */
  lemma {:induction false} CountByImpostors(id: Identity, desired: nat, infos: seq<MemberInfo>)
    requires PlainIdentity(id) && desired <= MAX_INT32
    ensures var members := OwnMembers(id, desired, infos);
      if Impostors(id, desired, infos) == {} then
        |members| <= desired && (|members| == desired <==> AllRegistered(id, desired, infos))
      else
        !(|members| == desired && AllRegistered(id, desired, infos))
  {
    hide OwnMembers, PodNames, AllRegistered, PlainIdentity;
    var keys := OwnMembers(id, desired, infos).Keys;
    var pods := PodNames(id, desired);
    PodNamesSize(id, desired);
    AllRegisteredIsCoverage(id, desired, infos);
    if Impostors(id, desired, infos) == {} {
      forall x | x in keys ensures x in pods {
        assert x in Impostors(id, desired, infos) || x in pods;
      }
      SubsetSize(keys, pods);
    } else if pods <= keys {
      var x :| x in Impostors(id, desired, infos);
      assert x in keys && x !in pods;
      SubsetSize(pods, keys);
    }
  }

  lemma {:induction false} SubsetSize<T>(a: set<T>, b: set<T>)
    requires a <= b
    ensures |a| <= |b| && (|a| == |b| <==> a == b)
  {
    assert b == a + (b - a);
    assert |b| == |a| + |b - a|;
  }
}
