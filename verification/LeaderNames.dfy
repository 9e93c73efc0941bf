/** The string tests by which the scaler and the upgrader try to recognise the leader. */
module LeaderNames {
  import opened Api
  import opened Names
  import opened NameParsing

  function Host(cluster: string, ordinal: nat, namespace: string, domain: string): string {
    PodName(cluster, Master, ordinal) + "." + MemberName(cluster, Master) + "-peer" + "." + namespace
    + ".svc" + (if domain == "" then "" else "." + domain)
  }

  /** The address a master advertises, and that condition Sync records as the leader's. */
  function AdvertisedAddress(cluster: string, ordinal: nat, namespace: string, domain: string): string {
    Host(cluster, ordinal, namespace, domain) + ":10240"
  }

  function PeerService(cluster: string, ordinal: nat): string {
    PodName(cluster, Master, ordinal) + "." + MemberName(cluster, Executor) + "-peer"
  }

  predicate OccursAt(s: string, part: string, i: nat) {
    i + |part| <= |s| && s[i..i + |part|] == part
  }

  predicate Contains(s: string, part: string) { exists i: nat | i <= |s| :: OccursAt(s, part, i) }

  /** The scaler compares the recorded leader with a bare pod name. */
  predicate ScalerSeesLeader(leader: string, cluster: string, ordinal: nat) {
    leader == PodName(cluster, Master, ordinal)
  }

  /** The upgrader looks for a peer service inside the recorded leader. */
  predicate UpgraderSeesLeader(leader: string, cluster: string, ordinal: nat) {
    Contains(leader, PeerService(cluster, ordinal) + ":10240")
  }

  lemma {:induction false} ContainedAtTheEnd(host: string, service: string)
    requires ':' !in host && ':' !in service
    ensures Contains(host + ":10240", service + ":10240") <==> EndsWith(host, service)
  {
    var s, part := host + ":10240", service + ":10240";
    if Contains(s, part) {
      var i: nat :| i <= |s| && OccursAt(s, part, i);
      assert forall j | 0 <= j < |s| :: s[j] == ':' ==> j == |host|;
      assert s[i..i + |part|][|service|] == s[i + |service|];
      assert host[i..] == s[i..i + |part|][..|service|];
    }
    if EndsWith(host, service) {
      var i := |host| - |service|;
      assert host == host[..i] + service;
      assert OccursAt(s, part, i);
    }
  }

  lemma {:induction false} NoColonInPodName(cluster: string, ordinal: nat)
    requires ':' !in cluster
    ensures ':' !in PodName(cluster, Master, ordinal)
  {
    assert ':' !in Digits(ordinal);
    assert ':' !in MemberName(cluster, Master);
  }

  lemma {:induction false} HostHasNoColon(cluster: string, ordinal: nat, namespace: string, domain: string)
    requires ':' !in cluster && ':' !in namespace && ':' !in domain
    ensures ':' !in Host(cluster, ordinal, namespace, domain)
  {
    hide PodName;
    NoColonInPodName(cluster, ordinal);
    assert ':' !in MemberName(cluster, Master);
    var a := PodName(cluster, Master, ordinal) + "." + MemberName(cluster, Master) + "-peer" + ".";
    assert ':' !in a;
    var b := namespace + ".svc" + (if domain == "" then "" else "." + domain);
    assert ':' !in b;
    assert Host(cluster, ordinal, namespace, domain) == a + b;
  }

  const EXECUTOR_PEER := "-tiflow-executor-peer"

  lemma {:induction false} EndingOfEnding(s: string, t: string, part: string)
    requires EndsWith(s, t) && EndsWith(t, part)
    ensures EndsWith(s, part)
  {
    assert s[|s| - |part|..] == s[|s| - |t|..][|t| - |part|..];
  }

  /** An ending without a dot lies behind the last dot. */
  lemma {:induction false} EndingBehindDot(head: string, tail: string, part: string)
    requires '.' !in part && EndsWith(head + "." + tail, part)
    ensures EndsWith(tail, part)
  {
    var s := head + "." + tail;
    forall i | |s| - |part| <= i < |s| ensures s[i] != '.' {
      assert s[i] == s[|s| - |part|..][i - (|s| - |part|)];
    }
    assert s[|head|] == '.';
    assert tail == s[|head| + 1..];
    assert tail[|tail| - |part|..] == s[|s| - |part|..];
  }

  /** A host name that ends in an executor's peer service has that ending in its cluster domain. */
  lemma {:induction false} EndingIsInDomain(front: string, domain: string, service: string)
    requires EndsWith(service, EXECUTOR_PEER)
    requires EndsWith(front + ".svc" + (if domain == "" then "" else "." + domain), service)
    ensures EndsWith(domain, EXECUTOR_PEER)
  {
    hide EndsWith;
    var host := front + ".svc" + (if domain == "" then "" else "." + domain);
    EndingOfEnding(host, service, EXECUTOR_PEER);
    if domain == "" {
      assert host == front + "." + "svc";
      EndingBehindDot(front, "svc", EXECUTOR_PEER);
      TooShort();
    } else {
      assert host == (front + ".svc") + "." + domain;
      EndingBehindDot(front + ".svc", domain, EXECUTOR_PEER);
    }
  }

  lemma {:induction false} TooShort()
    ensures !EndsWith("svc", EXECUTOR_PEER)
  {
  }

  /** The scaler's test never recognises a leader under the address that masters advertise. The
      upgrader's does exactly if the leader's host name ends in the peer service that it looks for,
      which takes a cluster domain with that ending: never the default one, nor any usual one. */
  lemma {:induction false} LeaderTestsFireExactly(cluster: string, leader: nat, ordinal: nat, namespace: string,
      domain: string)
    requires ':' !in cluster && ':' !in namespace && ':' !in domain
    ensures var address := AdvertisedAddress(cluster, leader, namespace, domain);
      && !ScalerSeesLeader(address, cluster, ordinal)
      && (UpgraderSeesLeader(address, cluster, ordinal) <==>
            EndsWith(Host(cluster, leader, namespace, domain), PeerService(cluster, ordinal)))
      && (UpgraderSeesLeader(address, cluster, ordinal) ==> EndsWith(domain, EXECUTOR_PEER))
  {
    hide PodName, Contains;
    var host := Host(cluster, leader, namespace, domain);
    var service := PeerService(cluster, ordinal);
    HostHasNoColon(cluster, leader, namespace, domain);
    NoColonInPodName(cluster, ordinal);
    assert ':' !in service by { assert ':' !in MemberName(cluster, Executor); }
    assert AdvertisedAddress(cluster, leader, namespace, domain)[|host|] == ':';
    ContainedAtTheEnd(host, service);
    ServiceEnding(cluster, ordinal);
    if EndsWith(host, service) {
      var front := PodName(cluster, Master, leader) + "." + MemberName(cluster, Master) + "-peer" + "." + namespace;
      EndingIsInDomain(front, domain, service);
    }
  }

  lemma {:induction false} ServiceEnding(cluster: string, ordinal: nat)
    ensures EndsWith(PeerService(cluster, ordinal), EXECUTOR_PEER)
  {
    hide PodName;
    var front := PodName(cluster, Master, ordinal) + "." + cluster;
    assert PeerService(cluster, ordinal) == front + EXECUTOR_PEER;
  }
}
