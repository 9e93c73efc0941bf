/** Pod and member names as the operator prints them. */
module Names {
  import opened Api

  const MAX_INT32: int := 0x7fff_ffff

  predicate IsDigit(c: char) { '0' <= c <= '9' }

  predicate AllDigits(s: string) { forall i | 0 <= i < |s| :: IsDigit(s[i]) }

  predicate NewlineFree(s: string) { '\n' !in s }

  function Digits(n: nat): (s: string)
    ensures |s| >= 1 && AllDigits(s)
  {
    var last := [(48 + n % 10) as char];
    if n < 10 then last else Digits(n / 10) + last
  }

  function ParseDigits(s: string): (n: nat)
    requires AllDigits(s)
  {
    if s == [] then 0
    else 10 * ParseDigits(s[..|s| - 1]) + (s[|s| - 1] as int - 48)
  }

  lemma {:induction false} DigitsRoundTrip(n: nat)
    ensures ParseDigits(Digits(n)) == n
  {
    var s := Digits(n);
    if n < 10 {
      assert s[..|s| - 1] == [];
    } else {
      DigitsRoundTrip(n / 10);
      assert s[..|s| - 1] == Digits(n / 10);
    }
  }

  lemma {:induction false} DigitsInjective(m: nat, n: nat)
    requires Digits(m) == Digits(n)
    ensures m == n
  {
    DigitsRoundTrip(m);
    DigitsRoundTrip(n);
  }

  function TypeName(m: Member): (s: string)
    ensures NewlineFree(s) && ':' !in s
  {
    if m.Master? then "tiflow-master" else "tiflow-executor"
  }

  function MemberName(cluster: string, m: Member): string { cluster + "-" + TypeName(m) }

  function PodName(cluster: string, m: Member, ordinal: nat): string {
    MemberName(cluster, m) + "-" + Digits(ordinal)
  }

  /** The name under which the start script of a pod registers it with tiflow-master. */
  function RegisteredName(cluster: string, m: Member, ordinal: nat, namespace: string): string {
    PodName(cluster, m, ordinal) + "." + namespace
  }

  lemma {:induction false} PodNameInjective(cluster: string, m: Member, i: nat, j: nat)
    requires PodName(cluster, m, i) == PodName(cluster, m, j)
    ensures i == j
  {
    var p := MemberName(cluster, m) + "-";
    assert PodName(cluster, m, i)[|p|..] == Digits(i);
    assert PodName(cluster, m, j)[|p|..] == Digits(j);
    DigitsInjective(i, j);
  }

  lemma {:induction false} RegisteredNameInjective(cluster: string, m: Member, i: nat, j: nat, namespace: string)
    requires RegisteredName(cluster, m, i, namespace) == RegisteredName(cluster, m, j, namespace)
    ensures i == j
  {
    var p, q := PodName(cluster, m, i), PodName(cluster, m, j);
    assert |p| == |q|;
    assert RegisteredName(cluster, m, i, namespace)[..|p|] == p;
    assert RegisteredName(cluster, m, j, namespace)[..|q|] == q;
    PodNameInjective(cluster, m, i, j);
  }
}
