/** Which reported names pass for members of a set, and what that makes of counting them. */
module RegisteredNames {
  import opened Api
  import opened Names
  import opened NameParsing
  import opened Members

  function Suffix(id: Identity): string { "-" + TypeName(id.m) }

  /** The set's name form with any digits, and the form without the member type. */
  function Typed(id: Identity, d: string): string { id.cluster + Suffix(id) + "-" + d + "." + id.namespace }
  function Typeless(id: Identity, d: string): string { id.cluster + "-" + d + "." + id.namespace }

  ghost predicate IsTypeless(id: Identity, name: string, d: string) {
    name == Typeless(id, d) && !EndsWith(id.cluster, Suffix(id))
  }

  /** Digits that name an ordinal in range, in a name of one of the two forms. The form without
      the type counts only for clusters whose own name does not end in it. */
  ghost predicate Reads(id: Identity, desired: nat, name: string, d: string) {
    && |d| >= 1 && AllDigits(d) && ParseDigits(d) < desired
    && (name == Typed(id, d) || IsTypeless(id, name, d))
  }

  lemma {:induction false} WholeLine(name: string)
    requires NewlineFree(name)
    ensures Submatches(name).Some? ==>
      var g := Submatches(name).value;
      name == g.prefix + "-" + g.digits + "." + g.tail && |g.digits| >= 1 && AllDigits(g.digits)
  {
    hide LastHit, Hit;
    assert name[..|name|] == name;
    LineLengthIs(name, |name|);
  }

  lemma {:induction false} GroupsOf(prefix: string, d: string, tail: string)
    requires NewlineFree(prefix) && |d| >= 1 && AllDigits(d) && NewlineFree(tail) && NoHit(tail)
    ensures Submatches(prefix + "-" + d + "." + tail) == Some(Groups(prefix, d, tail))
  {
    hide Submatches, NoHit;
    assert tail[..|tail|] == tail;
    LineLengthIs(tail, |tail|);
    SubmatchesOfPrinted(prefix, d, tail);
  }

  lemma {:induction false} TrimmedTo(prefix: string, suffix: string, cluster: string)
    ensures TrimSuffix(prefix, suffix) == cluster <==>
      prefix == cluster + suffix || (prefix == cluster && !EndsWith(cluster, suffix))
  {
    if EndsWith(prefix, suffix) {
      assert prefix == prefix[..|prefix| - |suffix|] + suffix;
    }
    assert (cluster + suffix)[|cluster|..] == suffix && (cluster + suffix)[..|cluster|] == cluster;
  }

  /** A name without newline is taken for a member exactly if it is one of the two forms with the
      digits of an ordinal in range. */
  lemma {:induction false} AcceptsExactly(id: Identity, desired: nat, name: string)
    requires PlainIdentity(id) && NewlineFree(name) && desired <= MAX_INT32
    ensures Accepts(id, desired, name) <==> exists d :: Reads(id, desired, name, d)
  {
    hide Submatches, NoHit, ParseDigits, TrimSuffix, EndsWith, TypeName;
    if Accepts(id, desired, name) {
      var g := Submatches(name).value;
      WholeLine(name);
      TrimmedTo(g.prefix, Suffix(id), id.cluster);
      assert Reads(id, desired, name, g.digits);
    }
    if d :| Reads(id, desired, name, d) {
      ReadIsAccepted(id, desired, name, d);
    }
  }

  lemma {:induction false} PrefixOfRead(id: Identity, desired: nat, name: string, d: string) returns (prefix: string)
    requires PlainIdentity(id) && Reads(id, desired, name, d)
    ensures Submatches(name) == Some(Groups(prefix, d, id.namespace))
    ensures prefix == id.cluster + Suffix(id) || (prefix == id.cluster && !EndsWith(id.cluster, Suffix(id)))
    ensures name == Typed(id, d) <==> prefix == id.cluster + Suffix(id)
  {
    hide Submatches, NoHit, EndsWith, TypeName;
    prefix := if name == Typed(id, d) then id.cluster + Suffix(id) else id.cluster;
    assert NewlineFree(prefix);
    GroupsOf(prefix, d, id.namespace);
  }

  lemma {:induction false} ReadIsAccepted(id: Identity, desired: nat, name: string, d: string)
    requires PlainIdentity(id) && Reads(id, desired, name, d) && desired <= MAX_INT32
    ensures Accepts(id, desired, name)
  {
    hide Submatches, NoHit, EndsWith, TypeName, ParseDigits, TrimSuffix;
    var prefix := PrefixOfRead(id, desired, name, d);
    TrimmedTo(prefix, Suffix(id), id.cluster);
  }

  // ----- leading zeros -----

  predicate Padded(d: string) { |d| > 1 && d[0] == '0' }

  lemma {:induction false} DigitsAreNotPadded(n: nat)
    ensures !Padded(Digits(n)) && (n > 0 ==> Digits(n)[0] != '0')
  {
    if n >= 10 { DigitsAreNotPadded(n / 10); }
  }

  lemma {:induction false} UnpaddedIsPrinted(d: string)
    requires |d| >= 1 && AllDigits(d) && !Padded(d)
    ensures Digits(ParseDigits(d)) == d && (d[0] != '0' ==> ParseDigits(d) > 0)
  {
    var front, last := d[..|d| - 1], d[|d| - 1];
    if |d| == 1 {
      assert ParseDigits(front) == 0;
      assert d == [last];
    } else {
      UnpaddedIsPrinted(front);
      assert d == front + [last];
    }
  }

  // ----- what the count says -----

  /** A name that passes for a member though no pod of the set registers under it. */
  ghost predicate Odd(id: Identity, desired: nat, name: string) {
    exists d :: Reads(id, desired, name, d) && (IsTypeless(id, name, d) || Padded(d))
  }

  ghost predicate Plainly(infos: seq<MemberInfo>) { forall i | 0 <= i < |infos| :: NewlineFree(infos[i].name) }

  ghost predicate NothingOdd(id: Identity, desired: nat, infos: seq<MemberInfo>) {
    forall i | 0 <= i < |infos| :: !Odd(id, desired, infos[i].name)
  }

  /** A name that passes is a pod's exactly if it is not odd. */
  lemma {:induction false} OddIsNoPod(id: Identity, desired: nat, name: string)
    requires PlainIdentity(id) && NewlineFree(name) && desired <= MAX_INT32 && Accepts(id, desired, name)
    ensures Odd(id, desired, name) <==> name !in PodNames(id, desired)
  {
    hide Submatches, NoHit, ParseDigits, EndsWith, TypeName, Digits, Accepts;
    AcceptsExactly(id, desired, name);
    var d :| Reads(id, desired, name, d);
    var prefix := PrefixOfRead(id, desired, name, d);
    OnlyReading(id, desired, name, d, prefix);
    if Padded(d) || name != Typed(id, d) {
      forall o: nat | o < desired ensures NameOf(id, o) != name { PrintedHasNoOddity(id, desired, name, d, prefix, o); }
    } else {
      UnpaddedIsPrinted(d);
      assert name == NameOf(id, ParseDigits(d));
    }
  }

  lemma {:induction false} OnlyReading(id: Identity, desired: nat, name: string, d: string, prefix: string)
    requires PlainIdentity(id) && Reads(id, desired, name, d)
    requires Submatches(name) == Some(Groups(prefix, d, id.namespace))
    requires name == Typed(id, d) <==> prefix == id.cluster + Suffix(id)
    ensures Odd(id, desired, name) <==> Padded(d) || name != Typed(id, d)
  {
    hide Submatches, NoHit, ParseDigits, EndsWith, TypeName;
    if Odd(id, desired, name) {
      var c :| Reads(id, desired, name, c) && (IsTypeless(id, name, c) || Padded(c));
      var p := PrefixOfRead(id, desired, name, c);
      assert c == d && p == prefix;
      assert |id.cluster + Suffix(id)| > |id.cluster|;
      assert Typeless(id, d) != Typed(id, d) by { assert |Typeless(id, d)| < |Typed(id, d)|; }
    }
  }

  lemma {:induction false} PrintedHasNoOddity(id: Identity, desired: nat, name: string, d: string, prefix: string,
      o: nat)
    requires PlainIdentity(id) && Submatches(name) == Some(Groups(prefix, d, id.namespace))
    requires name == Typed(id, d) <==> prefix == id.cluster + Suffix(id)
    ensures NameOf(id, o) == name ==> !Padded(d) && name == Typed(id, d)
  {
    hide Submatches, NoHit, TypeName, Digits;
    GroupsOf(MemberName(id.cluster, id.m), Digits(o), id.namespace);
    assert NewlineFree(MemberName(id.cluster, id.m));
    assert MemberName(id.cluster, id.m) == id.cluster + Suffix(id);
    DigitsAreNotPadded(o);
  }

  lemma {:induction false} ImpostorsAreOdd(id: Identity, desired: nat, infos: seq<MemberInfo>)
    requires PlainIdentity(id) && desired <= MAX_INT32 && Plainly(infos)
    ensures Impostors(id, desired, infos) == {} <==> NothingOdd(id, desired, infos)
  {
    hide PodNames, Odd, PlainIdentity;
    var keys := OwnMembers(id, desired, infos).Keys;
    forall i | 0 <= i < |infos|
      ensures infos[i].name in Impostors(id, desired, infos) <==> Odd(id, desired, infos[i].name)
    {
      assert Registered(infos, infos[i].name);
      if Accepts(id, desired, infos[i].name) { OddIsNoPod(id, desired, infos[i].name); }
      OddIsAccepted(id, desired, infos[i].name);
    }
    forall name | name in Impostors(id, desired, infos)
      ensures exists i | 0 <= i < |infos| :: infos[i].name == name
    {
      assert Registered(infos, name);
    }
  }

  lemma {:induction false} OddIsAccepted(id: Identity, desired: nat, name: string)
    requires PlainIdentity(id) && desired <= MAX_INT32
    ensures Odd(id, desired, name) ==> Accepts(id, desired, name)
  {
    hide Reads, Accepts;
    if Odd(id, desired, name) {
      var d :| Reads(id, desired, name, d) && (IsTypeless(id, name, d) || Padded(d));
      ReadIsAccepted(id, desired, name, d);
    }
  }

  /** The counting check, in terms of the names that were reported. If none is odd there are never
      more members than desired, and as many exactly when every ordinal has registered. If one is,
      a count that fits hides a pod that has not. So a check that passes is truthful exactly if no
      reported name lacks the type or has a leading zero where it counts. */
  lemma {:induction false} CountCheck(id: Identity, desired: nat, infos: seq<MemberInfo>)
    requires PlainIdentity(id) && desired <= MAX_INT32 && Plainly(infos)
    ensures var members := OwnMembers(id, desired, infos);
      if NothingOdd(id, desired, infos) then
        |members| <= desired && (|members| == desired <==> AllRegistered(id, desired, infos))
      else
        !(|members| == desired && AllRegistered(id, desired, infos))
  {
    hide OwnMembers, PodNames, AllRegistered, PlainIdentity, NothingOdd, Plainly;
    ImpostorsAreOdd(id, desired, infos);
    CountByImpostors(id, desired, infos);
  }

  /** A name that the start script of some pod of the same kind prints. */
  ghost predicate Canonical(m: Member, name: string) {
    exists cluster, o: nat, namespace ::
      PlainIdentity(Identity(cluster, namespace, m)) && name == RegisteredName(cluster, m, o, namespace)
  }

  lemma {:induction false} CanonicalIsNotOdd(id: Identity, desired: nat, name: string)
    requires PlainIdentity(id) && Canonical(id.m, name)
    ensures !Odd(id, desired, name)
  {
    hide Submatches, NoHit, ParseDigits, EndsWith, Digits, TypeName;
    var cluster, o: nat, namespace :|
      PlainIdentity(Identity(cluster, namespace, id.m)) && name == RegisteredName(cluster, id.m, o, namespace);
    var printed := MemberName(cluster, id.m);
    assert NewlineFree(printed);
    GroupsOf(printed, Digits(o), namespace);
    DigitsAreNotPadded(o);
    PrintedEndsInType(cluster, id.m);
    if Odd(id, desired, name) {
      var d :| Reads(id, desired, name, d) && (IsTypeless(id, name, d) || Padded(d));
      var prefix := PrefixOfRead(id, desired, name, d);
    }
  }

  lemma {:induction false} PrintedEndsInType(cluster: string, m: Member)
    ensures EndsWith(MemberName(cluster, m), "-" + TypeName(m))
  {
    assert MemberName(cluster, m) == cluster + ("-" + TypeName(m));
  }

  /** Reports of canonical names only, of whatever cluster, namespace and ordinal: the members never
      exceed the desired count and meet it exactly when every ordinal has registered. */
  lemma {:induction false} CountOfCanonicalNames(id: Identity, desired: nat, infos: seq<MemberInfo>)
    requires PlainIdentity(id) && desired <= MAX_INT32
    requires forall i | 0 <= i < |infos| :: Canonical(id.m, infos[i].name)
    ensures var members := OwnMembers(id, desired, infos);
      |members| <= desired && (|members| == desired <==> AllRegistered(id, desired, infos))
  {
    hide OwnMembers, AllRegistered, PlainIdentity, Odd;
    forall i | 0 <= i < |infos| ensures NewlineFree(infos[i].name) && !Odd(id, desired, infos[i].name) {
      CanonicalIsNotOdd(id, desired, infos[i].name);
      CanonicalIsPlain(id.m, infos[i].name);
    }
    CountCheck(id, desired, infos);
  }

  lemma {:induction false} CanonicalIsPlain(m: Member, name: string)
    requires Canonical(m, name)
    ensures NewlineFree(name)
  {
    hide NoHit, Digits, TypeName;
    var cluster, o: nat, namespace :|
      PlainIdentity(Identity(cluster, namespace, m)) && name == RegisteredName(cluster, m, o, namespace);
    assert NewlineFree(Digits(o)) by { assert AllDigits(Digits(o)); }
  }

  // ----- names that fool the check -----

  /** One reported name for a set of one pod: whatever its form, it is counted, and only the pod's
      own name is the pod's. */
  lemma {:induction false} OneReport(id: Identity, key: string, name: string, address: string, d: string)
    requires PlainIdentity(id) && Reads(id, 1, name, d)
    ensures var report := [MemberInfo(key, name, address)];
      |OwnMembers(id, 1, report)| == 1 && (AllRegistered(id, 1, report) <==> name == NameOf(id, 0))
  {
    hide Reads, NameOf, PlainIdentity, Accepts;
    var report := [MemberInfo(key, name, address)];
    ReadIsAccepted(id, 1, name, d);
    assert report[0].name == name && Registered(report, name);
    forall n | n in OwnMembers(id, 1, report) ensures n == name { assert Registered(report, n); }
    assert OwnMembers(id, 1, report).Keys == {name};
    assert Registered(report, NameOf(id, 0)) ==> report[0].name == NameOf(id, 0);
  }

  /** `cluster-type-00.namespace` counts for ordinal 0 of every set, whose pod never registered. */
  lemma {:induction false} PaddedNameFools(id: Identity, address: string)
    requires PlainIdentity(id)
    ensures var report := [MemberInfo("", Typed(id, "00"), address)];
      |OwnMembers(id, 1, report)| == 1 && !AllRegistered(id, 1, report)
  {
    hide Submatches, NoHit, TypeName;
    assert ParseDigits("00") == 0 by { assert "00"[..1] == "0" && "0"[..0] == ""; }
    OneReport(id, "", Typed(id, "00"), address, "00");
    assert |NameOf(id, 0)| < |Typed(id, "00")|;
  }

  /** So does `cluster-0.namespace`, unless the cluster's own name ends in the type. */
  lemma {:induction false} TypelessNameFools(id: Identity, address: string)
    requires PlainIdentity(id) && !EndsWith(id.cluster, Suffix(id))
    ensures var report := [MemberInfo("", Typeless(id, "0"), address)];
      |OwnMembers(id, 1, report)| == 1 && !AllRegistered(id, 1, report)
  {
    hide Submatches, NoHit, EndsWith;
    assert ParseDigits("0") == 0 by { assert "0"[..0] == ""; }
    OneReport(id, "", Typeless(id, "0"), address, "0");
    assert |NameOf(id, 0)| > |Typeless(id, "0")|;
  }
}
