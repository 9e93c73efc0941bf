/** What the pruner's choice and order by name mean in terms of ordinals. */
module PruneOrder {
  import opened Api
  import opened Names
  import opened Pruning

  predicate DashFree(s: string) { '-' !in s }

  lemma {:induction false} DashBeforeTail(a: string, d: string)
    requires DashFree(d)
    ensures var s := a + "-" + d;
      s[|a|] == '-' && forall i | |a| < i < |s| :: s[i] != '-'
  {
    var s := a + "-" + d;
    forall i | |a| < i < |s| ensures s[i] != '-' {
      assert s[i] == d[i - |a| - 1];
    }
  }

  lemma {:induction false} CutAtDash(a: string, d: string, b: string, e: string)
    requires a + "-" + d == b + "-" + e && DashFree(d) && DashFree(e)
    ensures a == b && d == e
  {
    var s, t := a + "-" + d, b + "-" + e;
    DashBeforeTail(a, d);
    DashBeforeTail(b, e);
    assert |a| == |b|;
    assert a == s[..|a|] && b == t[..|b|] && d == s[|a| + 1..] && e == t[|b| + 1..];
  }

  lemma {:induction false} DigitsHaveNoDash(n: nat)
    ensures DashFree(Digits(n))
  {
    assert AllDigits(Digits(n));
  }

  lemma {:induction false} SameClaim(t: string, sts: string, j: nat, u: string, k: nat)
    requires ClaimName(t, sts, j) == ClaimName(u, sts, k)
    ensures t == u && j == k
  {
    hide Digits;
    DigitsHaveNoDash(j);
    DigitsHaveNoDash(k);
    CutAtDash(ClaimPrefix(t, sts), Digits(j), ClaimPrefix(u, sts), Digits(k));
    DigitsInjective(j, k);
    assert ClaimPrefix(t, sts)[..|t|] == t && ClaimPrefix(u, sts)[..|u|] == u;
  }

  /** Of the set's own claims exactly those from the replica count on are deletable. */
  lemma {:induction false} OwnClaims(templates: seq<string>, sts: string, replicas: nat, i: nat, ordinal: nat)
    requires i < |templates|
    ensures Deletable(ClaimName(templates[i], sts, ordinal), templates, sts, replicas) <==> ordinal >= replicas
  {
    hide Digits;
    var name := ClaimName(templates[i], sts, ordinal);
    assert HasPrefix(name, ClaimPrefix(templates[i], sts));
    if InUse(name, templates, sts, replicas) {
      var k, j: nat :| 0 <= k < |templates| && j < replicas && name == ClaimName(templates[k], sts, j);
      SameClaim(templates[i], sts, ordinal, templates[k], j);
    }
  }

  /** The claim is one of the set's own: some template of it gives the same prefix. */
  ghost predicate SharesPrefix(templates: seq<string>, sts: string, template: string, other: string) {
    exists i | 0 <= i < |templates| :: ClaimPrefix(templates[i], sts) == ClaimPrefix(template, other)
  }

  /** Any claim named by template, set and ordinal, under a list of templates: it is deletable
      exactly if some template's prefix begins it and it is none of the set's claims in use. */
  lemma {:induction false} ClaimsDeletableExactly(templates: seq<string>, sts: string, replicas: nat,
      template: string, other: string, ordinal: nat)
    ensures Deletable(ClaimName(template, other, ordinal), templates, sts, replicas) <==>
      && Provisioned(ClaimName(template, other, ordinal), templates, sts)
      && !(ordinal < replicas && SharesPrefix(templates, sts, template, other))
  {
    hide Digits, HasPrefix, ClaimPrefix;
    var name := ClaimName(template, other, ordinal);
    if InUse(name, templates, sts, replicas) {
      var k, j: nat :| 0 <= k < |templates| && j < replicas && name == ClaimName(templates[k], sts, j);
      DigitsHaveNoDash(ordinal);
      DigitsHaveNoDash(j);
      CutAtDash(ClaimPrefix(template, other), Digits(ordinal), ClaimPrefix(templates[k], sts), Digits(j));
      DigitsInjective(ordinal, j);
    }
    if ordinal < replicas && SharesPrefix(templates, sts, template, other) {
      var i :| 0 <= i < |templates| && ClaimPrefix(templates[i], sts) == ClaimPrefix(template, other);
      assert name == ClaimName(templates[i], sts, ordinal);
    }
  }

  /** The prefix has no closing dash. So a claim of the set `other` passes for one of `sts`
      exactly if its name behind the template begins with that of `sts`, unless it is in use. */
  lemma {:induction false} ForeignClaimsPassExactly(template: string, sts: string, other: string, replicas: nat,
      ordinal: nat)
    ensures Deletable(ClaimName(template, other, ordinal), [template], sts, replicas) <==>
      HasPrefix(other + "-" + Digits(ordinal), sts) && !(other == sts && ordinal < replicas)
  {
    hide Digits;
    var name := ClaimName(template, other, ordinal);
    var front, rest := template + "-", other + "-" + Digits(ordinal);
    ClaimsDeletableExactly([template], sts, replicas, template, other, ordinal);
    assert name == front + rest && ClaimPrefix(template, sts) == front + sts;
    PrefixBehind(front, rest, sts);
    assert Provisioned(name, [template], sts) <==> HasPrefix(name, ClaimPrefix([template][0], sts));
    assert ClaimPrefix(template, other)[|front|..] == other && ClaimPrefix(template, sts)[|front|..] == sts;
    assert [template][0] == template;
  }

  lemma {:induction false} PrefixBehind(front: string, s: string, prefix: string)
    ensures HasPrefix(front + s, front + prefix) <==> HasPrefix(s, prefix)
  {
    if |prefix| <= |s| {
      assert (front + s)[..|front + prefix|] == front + s[..|prefix|];
      assert front + s[..|prefix|] == front + prefix ==> (front + s[..|prefix|])[|front|..] == prefix;
    }
  }

  // ----- which claims are listed at all -----

  type Labels = map<string, string>

  /** The labels of an executor's set: its selector, and what Kubernetes puts on its claims. */
  function ExecutorLabels(instance: string): Labels {
    map["app.kubernetes.io/name" := "tiflow-cluster", "app.kubernetes.io/managed-by" := "tiflow-operator",
        "app.kubernetes.io/instance" := instance, "app.kubernetes.io/component" := "tiflow-executor"]
  }

  predicate Matches(selector: Labels, labels: Labels) {
    forall k | k in selector :: k in labels && labels[k] == selector[k]
  }

  /** A cluster's instance name is its own, unless a label on it says otherwise. */
  function InstanceName(cluster: string, mark: Option<string>): string {
    match mark
    case Some(name) => name
    case None => cluster
  }

  lemma {:induction false} ListedExactly(instance: string, other: string, labels: Labels)
    requires Matches(ExecutorLabels(other), labels)
    ensures Matches(ExecutorLabels(instance), labels) <==> instance == other
  {
    var key := "app.kubernetes.io/instance";
    assert key in ExecutorLabels(other) && ExecutorLabels(other)[key] == other;
    assert key in ExecutorLabels(instance) && ExecutorLabels(instance)[key] == instance;
  }

  /** A claim of another cluster's executors is listed and passes for leftover exactly if both
      clusters go by the same instance name and this set's name begins the claim's. Two clusters
      of different names share an instance name only through the label. */
  lemma {:induction false} OtherClustersClaims(template: string, cluster: string, mark: Option<string>, other: string,
      otherMark: Option<string>, replicas: nat, ordinal: nat, labels: Labels)
    requires cluster != other && Matches(ExecutorLabels(InstanceName(other, otherMark)), labels)
    ensures var sts, foreign := MemberName(cluster, Executor), MemberName(other, Executor);
      Matches(ExecutorLabels(InstanceName(cluster, mark)), labels)
      && Deletable(ClaimName(template, foreign, ordinal), [template], sts, replicas) <==>
        InstanceName(cluster, mark) == InstanceName(other, otherMark)
        && HasPrefix(foreign + "-" + Digits(ordinal), sts)
    ensures mark.None? && otherMark.None? ==> !Matches(ExecutorLabels(InstanceName(cluster, mark)), labels)
  {
    hide Digits, ExecutorLabels, Deletable, HasPrefix;
    ListedExactly(InstanceName(cluster, mark), InstanceName(other, otherMark), labels);
    ForeignClaimsPassExactly(template, MemberName(cluster, Executor), MemberName(other, Executor), replicas, ordinal);
    assert MemberName(cluster, Executor)[..|cluster|] == cluster && MemberName(other, Executor)[..|other|] == other;
  }

  /** A set without claim templates has nothing to prune. The sets that the operator builds have
      none; a set that it adopted keeps those it came with. */
  lemma {:induction false} NothingWithoutTemplates(name: string, sts: string, replicas: nat)
    ensures !Deletable(name, [], sts, replicas)
  {
  }

  /** Such an input: an adopted set of cluster "a" with the template "data", and a cluster
      "a-tiflow-executor-b" under the same instance label. Every claim of the latter goes, in use
      or not, whatever the replica counts. */
  lemma {:induction false} ForeignClaimIsTaken(replicas: nat, ordinal: nat)
    ensures var mark := Some("shared");
      var other := "a-tiflow-executor-b";
      && Matches(ExecutorLabels(InstanceName("a", mark)), ExecutorLabels(InstanceName(other, mark)))
      && Deletable(ClaimName("data", MemberName(other, Executor), ordinal), ["data"],
              MemberName("a", Executor), replicas)
  {
    hide Digits, Deletable;
    var other := "a-tiflow-executor-b";
    var foreign, own := MemberName(other, Executor), MemberName("a", Executor);
    assert own == "a-tiflow-executor" && other == own + "-b";
    assert foreign + "-" + Digits(ordinal) == own + ("-b-tiflow-executor-" + Digits(ordinal)) by {
      assert foreign == own + "-b-tiflow-executor";
    }
    OtherClustersClaims("data", "a", Some("shared"), other, Some("shared"), replicas, ordinal,
      ExecutorLabels("shared"));
  }

  // ----- the order -----

  lemma {:induction false} LeqBehindPrefix(p: string, a: string, b: string)
    ensures NameLeq(p + a, p + b) == NameLeq(a, b)
  {
    if p == "" {
      assert p + a == a && p + b == b;
    } else {
      assert (p + a)[1..] == p[1..] + a && (p + b)[1..] == p[1..] + b;
      LeqBehindPrefix(p[1..], a, b);
    }
  }

  lemma {:induction false} LeqBySuffix(a: string, b: string, x: char, y: char)
    requires |a| == |b|
    ensures NameLeq(a + [x], b + [y]) <==> if a == b then x <= y else NameLeq(a, b)
  {
    if a == "" {
      assert a + [x] == [x] && b + [y] == [y];
      assert [x][1..] == "";
    } else {
      assert (a + [x])[1..] == a[1..] + [x] && (b + [y])[1..] == b[1..] + [y];
      assert a == [a[0]] + a[1..] && b == [b[0]] + b[1..];
      LeqBySuffix(a[1..], b[1..], x, y);
      NameLeqTotal(a[1..], b[1..]);
    }
  }

  /** Numbers printed with equally many digits order as their numbers do. */
  lemma {:induction false} SameWidthOrder(i: nat, j: nat)
    requires |Digits(i)| == |Digits(j)|
    ensures NameLeq(Digits(i), Digits(j)) <==> i <= j
  {
    if i >= 10 && j >= 10 {
      SameWidthOrder(i / 10, j / 10);
      LeqBySuffix(Digits(i / 10), Digits(j / 10), (48 + i % 10) as char, (48 + j % 10) as char);
      if Digits(i / 10) == Digits(j / 10) { DigitsInjective(i / 10, j / 10); }
    }
  }

  lemma {:induction false} WidthGrows(i: nat, j: nat)
    requires i <= j
    ensures |Digits(i)| <= |Digits(j)|
  {
    if i >= 10 { WidthGrows(i / 10, j / 10); }
  }

  lemma {:induction false} NextTenth(n: nat)
    ensures (n + 1) / 10 == if n % 10 == 9 then n / 10 + 1 else n / 10
  {
  }

  /** Where the width grows, the larger number comes first: "10" before "9". */
  lemma {:induction false} WiderComesFirst(n: nat)
    requires |Digits(n)| < |Digits(n + 1)|
    ensures Digits(n)[0] == '9' && Digits(n + 1)[0] == '1' && !NameLeq(Digits(n), Digits(n + 1))
  {
    if n >= 10 {
      NextTenth(n);
      if n % 10 == 9 { WiderComesFirst(n / 10); }
    }
  }

  lemma {:induction false} SomewhereWider(lo: nat, hi: nat) returns (n: nat)
    requires lo <= hi && |Digits(lo)| < |Digits(hi)|
    ensures lo <= n < hi && |Digits(n)| < |Digits(n + 1)|
    decreases hi - lo
  {
    if |Digits(hi - 1)| < |Digits(hi)| { n := hi - 1; }
    else { n := SomewhereWider(lo, hi - 1); }
  }

  ghost predicate OrdinalOrder(template: string, sts: string, lo: nat, hi: nat) {
    forall i: nat, j: nat | lo <= i < j < hi :: NameLeq(ClaimName(template, sts, i), ClaimName(template, sts, j))
  }

  /** The order by name takes a template's leftover claims from the lowest ordinal to the highest
      exactly when the lowest and the highest are printed with equally many digits. */
  lemma {:induction false} LowestFirstExactly(template: string, sts: string, lo: nat, hi: nat)
    requires lo < hi
    ensures OrdinalOrder(template, sts, lo, hi) <==> |Digits(lo)| == |Digits(hi - 1)|
  {
    hide Digits, NameLeq;
    var p := ClaimPrefix(template, sts) + "-";
    forall i: nat, j: nat
      ensures NameLeq(ClaimName(template, sts, i), ClaimName(template, sts, j)) == NameLeq(Digits(i), Digits(j))
    {
      LeqBehindPrefix(p, Digits(i), Digits(j));
    }
    WidthGrows(lo, hi - 1);
    if |Digits(lo)| == |Digits(hi - 1)| {
      forall i: nat, j: nat | lo <= i < j < hi
        ensures NameLeq(ClaimName(template, sts, i), ClaimName(template, sts, j))
      {
        WidthGrows(lo, i);
        WidthGrows(i, j);
        WidthGrows(j, hi - 1);
        SameWidthOrder(i, j);
      }
    } else {
      var n := SomewhereWider(lo, hi - 1);
      WiderComesFirst(n);
      assert !NameLeq(ClaimName(template, sts, n), ClaimName(template, sts, n + 1));
    }
  }
}
