/** findPVCDeletable: which volume claims of the executor's set may go, in which order. */
module Pruning {
  import opened Names

  datatype Pvc = Pvc(name: string, uid: string, version: string)

  // ----- what is in use, what is deletable -----

  function ClaimPrefix(template: string, sts: string): string { template + "-" + sts }

  function ClaimName(template: string, sts: string, ordinal: nat): string {
    ClaimPrefix(template, sts) + "-" + Digits(ordinal)
  }

  predicate HasPrefix(s: string, prefix: string) { |prefix| <= |s| && s[..|prefix|] == prefix }

  ghost predicate InUse(name: string, templates: seq<string>, sts: string, replicas: nat) {
    exists i, j: nat | 0 <= i < |templates| && j < replicas :: name == ClaimName(templates[i], sts, j)
  }

  ghost predicate Provisioned(name: string, templates: seq<string>, sts: string) {
    exists i | 0 <= i < |templates| :: HasPrefix(name, ClaimPrefix(templates[i], sts))
  }

  ghost predicate Deletable(name: string, templates: seq<string>, sts: string, replicas: nat) {
    !InUse(name, templates, sts, replicas) && Provisioned(name, templates, sts)
  }

  // ----- order by name, as Go compares strings -----

  predicate NameLeq(a: string, b: string) {
    a == "" || (b != "" && (a[0] < b[0] || (a[0] == b[0] && NameLeq(a[1..], b[1..]))))
  }

  ghost predicate SortedByName(s: seq<Pvc>) {
    forall i, j | 0 <= i < j < |s| :: NameLeq(s[i].name, s[j].name)
  }

  lemma {:induction false} NameLeqTotal(a: string, b: string)
    ensures NameLeq(a, b) || NameLeq(b, a)
    ensures NameLeq(a, b) && NameLeq(b, a) ==> a == b
    ensures a == b ==> NameLeq(a, b)
  {
    if a != "" && b != "" {
      NameLeqTotal(a[1..], b[1..]);
      assert a == [a[0]] + a[1..] && b == [b[0]] + b[1..];
    }
  }

  lemma {:induction false} NameLeqTransitive(a: string, b: string, c: string)
    requires NameLeq(a, b) && NameLeq(b, c)
    ensures NameLeq(a, c)
  {
    if a != "" && a[0] == b[0] && b[0] == c[0] {
      NameLeqTransitive(a[1..], b[1..], c[1..]);
    }
  }

  function Insert(x: Pvc, s: seq<Pvc>): seq<Pvc> {
    if s == [] || NameLeq(x.name, s[0].name) then [x] + s else [s[0]] + Insert(x, s[1..])
  }

  function Sorted(s: seq<Pvc>): (r: seq<Pvc>)
    ensures |r| == |s|
  {
    if s == [] then []
    else
      InsertSize(s[0], Sorted(s[1..]));
      Insert(s[0], Sorted(s[1..]))
  }

  lemma {:induction false} InsertSize(x: Pvc, s: seq<Pvc>)
    ensures |Insert(x, s)| == |s| + 1
  {
    if s != [] { InsertSize(x, s[1..]); }
  }

  lemma {:induction false} InsertKeeps(x: Pvc, s: seq<Pvc>)
    ensures multiset(Insert(x, s)) == multiset(s) + multiset{x}
  {
    if s == [] || NameLeq(x.name, s[0].name) {
    } else {
      InsertKeeps(x, s[1..]);
      assert s == [s[0]] + s[1..];
    }
  }

  lemma {:induction false} InsertSorts(x: Pvc, s: seq<Pvc>)
    requires SortedByName(s)
    ensures SortedByName(Insert(x, s))
  {
    if s == [] {
    } else if NameLeq(x.name, s[0].name) {
      forall j | 0 <= j < |s| ensures NameLeq(x.name, s[j].name) {
        if j > 0 { NameLeqTransitive(x.name, s[0].name, s[j].name); }
      }
    } else {
      var rest := Insert(x, s[1..]);
      InsertSorts(x, s[1..]);
      InsertKeeps(x, s[1..]);
      NameLeqTotal(x.name, s[0].name);
      forall j | 0 <= j < |rest| ensures NameLeq(s[0].name, rest[j].name) {
        assert rest[j] in multiset(rest);
        assert rest[j] == x || rest[j] in s[1..];
      }
    }
  }

  lemma {:induction false} SortedSorts(s: seq<Pvc>)
    ensures SortedByName(Sorted(s)) && multiset(Sorted(s)) == multiset(s)
  {
    if s != [] {
      SortedSorts(s[1..]);
      InsertSorts(s[0], Sorted(s[1..]));
      InsertKeeps(s[0], Sorted(s[1..]));
      assert s == [s[0]] + s[1..];
    }
  }

  // ----- the code -----

  method KeepSet(templates: seq<string>, sts: string, replicas: nat)
    returns (prefixes: seq<string>, keep: set<string>)
    ensures |prefixes| == |templates|
    ensures forall i | 0 <= i < |templates| :: prefixes[i] == ClaimPrefix(templates[i], sts)
    ensures forall name :: name in keep <==> InUse(name, templates, sts, replicas)
  {
    prefixes, keep := [], {};
    for i := 0 to |templates|
      invariant |prefixes| == i
      invariant forall k | 0 <= k < i :: prefixes[k] == ClaimPrefix(templates[k], sts)
      invariant forall name | name in keep :: InUse(name, templates, sts, replicas)
      invariant forall k, j: nat | 0 <= k < i && j < replicas :: ClaimName(templates[k], sts, j) in keep
    {
      prefixes := prefixes + [ClaimPrefix(templates[i], sts)];
      for j := 0 to replicas
        invariant forall name | name in keep :: InUse(name, templates, sts, replicas)
        invariant forall k, l: nat | 0 <= k < i && l < replicas :: ClaimName(templates[k], sts, l) in keep
        invariant forall l: nat | l < j :: ClaimName(templates[i], sts, l) in keep
      {
        keep := keep + {ClaimName(templates[i], sts, j)};
      }
    }
  }

  method MatchesPrefix(name: string, prefixes: seq<string>) returns (matched: bool)
    ensures matched <==> exists i | 0 <= i < |prefixes| :: HasPrefix(name, prefixes[i])
  {
    for i := 0 to |prefixes|
      invariant forall k | 0 <= k < i :: !HasPrefix(name, prefixes[k])
    {
      if HasPrefix(name, prefixes[i]) { return true; }
    }
    return false;
  }

  /** The listed claims that satisfy `keep`, in list order. */
  ghost function Filter(s: seq<Pvc>, keep: string -> bool): seq<Pvc> {
    if s == [] then []
    else Filter(s[..|s| - 1], keep) + if keep(s[|s| - 1].name) then [s[|s| - 1]] else []
  }

  lemma {:induction false} FilterCounts(s: seq<Pvc>, keep: string -> bool, x: Pvc)
    ensures multiset(Filter(s, keep))[x] == if keep(x.name) then multiset(s)[x] else 0
  {
    if s != [] {
      FilterCounts(s[..|s| - 1], keep, x);
      assert s == s[..|s| - 1] + [s[|s| - 1]];
    }
  }

  ghost function Test(templates: seq<string>, sts: string, replicas: nat): string -> bool {
    (name: string) => Deletable(name, templates, sts, replicas)
  }

  lemma {:induction false} FilterStep(s: seq<Pvc>, k: nat, keep: string -> bool)
    requires k < |s|
    ensures Filter(s[..k + 1], keep) == Filter(s[..k], keep) + if keep(s[k].name) then [s[k]] else []
  {
    assert s[..k + 1][..k] == s[..k];
  }

  /** The loop that overwrites the front of the list with the claims it keeps. */
  method Compact(items: array<Pvc>, prefixes: seq<string>, inUse: set<string>, ghost test: string -> bool)
    returns (n: nat)
    requires forall name :: test(name) <==>
      name !in inUse && exists i | 0 <= i < |prefixes| :: HasPrefix(name, prefixes[i])
    modifies items
    ensures n <= items.Length && items[..n] == Filter(old(items[..]), test)
    ensures items[n..] == old(items[n..])
  {
    assert Filter([], test) == [];
    hide Filter, HasPrefix;
    ghost var was := items[..];
    n := 0;
    for k := 0 to items.Length
      invariant n <= k
      invariant items[..n] == Filter(was[..k], test)
      invariant forall l | n <= l < items.Length :: items[l] == was[l]
    {
      var pvc := items[k];
      FilterStep(was, k, test);
      if pvc.name in inUse { continue; }
      var matched := MatchesPrefix(pvc.name, prefixes);
      if !matched { continue; }
      ghost var before := items[..n];
      items[n] := pvc;
      n := n + 1;
      assert items[..n] == before + [pvc];
    }
    assert was[..items.Length] == was;
  }

  /** What sort.Slice leaves of the first `n` items. */
  method SortFront(items: array<Pvc>, n: nat)
    requires n <= items.Length
    modifies items
    ensures items[..n] == Sorted(old(items[..n]))
    ensures items[n..] == old(items[n..])
  {
    hide Sorted;
    var sorted := Sorted(items[..n]);
    for i := 0 to n
      invariant items[..i] == sorted[..i]
      invariant items[n..] == old(items[n..])
    {
      items[i] := sorted[i];
    }
  }

  /** The result is a name-sorted rearrangement of exactly the listed claims that carry a
      template's prefix and are not in use: no claim in use is returned, none deletable is lost,
      each as often as it was listed. */
  method FindDeletable(items: array<Pvc>, templates: seq<string>, sts: string, replicas: nat) returns (n: nat)
    modifies items
    ensures n <= items.Length
    ensures SortedByName(items[..n])
    ensures forall x ::
      multiset(items[..n])[x] ==
        (if Deletable(x.name, templates, sts, replicas) then multiset(old(items[..]))[x] else 0)
  {
    hide SortedByName, Deletable, InUse, Provisioned, HasPrefix, Sorted, Filter;
    var prefixes, inUse := KeepSet(templates, sts, replicas);
    DeletableIs(prefixes, inUse, templates, sts, replicas);
    ghost var test := Test(templates, sts, replicas);
    ghost var listed := items[..];
    n := Compact(items, prefixes, inUse, test);
    forall x ensures multiset(items[..n])[x] == if test(x.name) then multiset(listed)[x] else 0 {
      FilterCounts(listed, test, x);
    }
    SortedSorts(items[..n]);
    SortFront(items, n);
  }

  lemma {:induction false} DeletableIs(prefixes: seq<string>, inUse: set<string>, templates: seq<string>,
      sts: string, replicas: nat)
    requires |prefixes| == |templates|
    requires forall i | 0 <= i < |templates| :: prefixes[i] == ClaimPrefix(templates[i], sts)
    requires forall name :: name in inUse <==> InUse(name, templates, sts, replicas)
    ensures forall name ::
      Test(templates, sts, replicas)(name) <==>
        (name !in inUse && exists i | 0 <= i < |prefixes| :: HasPrefix(name, prefixes[i]))
  {
    hide InUse, HasPrefix, ClaimPrefix;
    forall name ensures Provisioned(name, templates, sts) <==>
      (exists i | 0 <= i < |prefixes| :: HasPrefix(name, prefixes[i]))
    {
      if Provisioned(name, templates, sts) {
        var i :| 0 <= i < |templates| && HasPrefix(name, ClaimPrefix(templates[i], sts));
        assert HasPrefix(name, prefixes[i]);
      }
      if i :| 0 <= i < |prefixes| && HasPrefix(name, prefixes[i]) {
        assert HasPrefix(name, ClaimPrefix(templates[i], sts));
      }
    }
  }
}
