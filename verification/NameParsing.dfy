/** The regular expression `(.*)-([\d]+)\.(.*)` by which the operator takes a reported member
    name apart. The functions below compute the match; `SubmatchesAreLeftmostGreedy` shows it
    to be the one a leftmost, greedy matcher selects. */
module NameParsing {
  import opened Api
  import opened Names

  /** One way to read `s` through the expression's three groups; a dot matches no newline. */
  ghost predicate Splits(s: string, a: string, d: string, b: string) {
    s == a + "-" + d + "." + b && |d| >= 1 && AllDigits(d) && NewlineFree(a) && NewlineFree(b)
  }

  /** A match of the unanchored expression that starts at `start`. */
  ghost predicate MatchAt(s: string, start: nat, a: string, d: string, b: string) {
    var len := |a| + |d| + |b| + 2;
    start + len <= |s| && Splits(s[start..start + len], a, d, b)
  }

  /** No match starts earlier; of those starting here none has a longer first group, nor, with
      an equally long one, a longer last group. */
  ghost predicate Selected(s: string, start: nat, a: string, d: string, b: string) {
    && MatchAt(s, start, a, d, b)
    && forall start': nat, a', d', b' | MatchAt(s, start', a', d', b') ::
         && start <= start'
         && (start == start' ==> |a'| <= |a| && (|a'| == |a| ==> |b'| <= |b|))
  }

  ghost predicate SelectedGroups(s: string, start: nat, g: Groups) {
    Selected(s, start, g.prefix, g.digits, g.tail)
  }

  function DigitRun(s: string, k: nat): (n: nat)
    requires k <= |s|
    ensures k + n <= |s|
    ensures forall i | k <= i < k + n :: IsDigit(s[i])
    ensures k + n < |s| ==> !IsDigit(s[k + n])
    decreases |s| - k
  {
    if k < |s| && IsDigit(s[k]) then 1 + DigitRun(s, k + 1) else 0
  }

  lemma {:induction false} DigitRunIs(s: string, k: nat, n: nat)
    requires k + n <= |s|
    requires forall i | k <= i < k + n :: IsDigit(s[i])
    requires k + n < |s| ==> !IsDigit(s[k + n])
    ensures DigitRun(s, k) == n
    decreases n
  {
    if n > 0 { DigitRunIs(s, k + 1, n - 1); }
  }

  /** Position `k` holds a dash that digits and a dot follow. */
  predicate Hit(s: string, k: nat)
    requires k < |s|
  {
    var run := DigitRun(s, k + 1);
    s[k] == '-' && run >= 1 && k + 1 + run < |s| && s[k + 1 + run] == '.'
  }

  function LastHit(s: string, n: nat): (k: int)
    requires n <= |s|
    ensures -1 <= k < n
    ensures k >= 0 ==> Hit(s, k)
    ensures forall j: nat | k < j < n :: !Hit(s, j)
  {
    if n == 0 then -1 else if Hit(s, n - 1) then n - 1 else LastHit(s, n - 1)
  }

  /** No dash, digits, dot inside the string. */
  predicate NoHit(s: string) { LastHit(s, |s|) < 0 }

  function LineLength(s: string): (n: nat)
    ensures n <= |s| && NewlineFree(s[..n])
    ensures n < |s| ==> s[n] == '\n'
  {
    if s == [] || s[0] == '\n' then 0
    else
      var n := 1 + LineLength(s[1..]);
      assert s[..n] == [s[0]] + s[1..][..n - 1];
      n
  }

  lemma {:induction false} LineLengthIs(s: string, n: nat)
    requires n <= |s| && NewlineFree(s[..n])
    requires n < |s| ==> s[n] == '\n'
    ensures LineLength(s) == n
  {
    if n > 0 {
      assert s[0] == s[..n][0];
      assert s[1..][..n - 1] == s[..n][1..];
      LineLengthIs(s[1..], n - 1);
    }
  }

  datatype Groups = Groups(prefix: string, digits: string, tail: string)

  /** The groups of a line that is read around the hit at `k`. */
  function GroupsAt(line: string, k: nat): (g: Groups)
    requires k < |line| && Hit(line, k)
    ensures line == g.prefix + "-" + g.digits + "." + g.tail
    ensures |g.prefix| == k && |g.digits| >= 1 && AllDigits(g.digits)
  {
    var run := DigitRun(line, k + 1);
    Groups(line[..k], line[k + 1..k + 1 + run], line[k + 2 + run..])
  }

  /** The three groups of the match; a match lies within one line. */
  function Submatches(s: string): Option<Groups>
    decreases |s|
  {
    var n := LineLength(s);
    var line := s[..n];
    var k := LastHit(line, n);
    if k >= 0 then Some(GroupsAt(line, k))
    else if n < |s| then Submatches(s[n + 1..])
    else None
  }

  lemma {:induction false} SplitIsHit(s: string, start: nat, a: string, d: string, b: string)
    requires MatchAt(s, start, a, d, b)
    ensures start + |a| < |s| && Hit(s, start + |a|) && DigitRun(s, start + |a| + 1) == |d|
  {
    var len := |a| + |d| + |b| + 2;
    var t := s[start..start + len];
    var k := start + |a|;
    assert t == a + "-" + d + "." + b;
    assert s[k] == t[|a|] == '-';
    assert s[k + 1 + |d|] == t[|a| + 1 + |d|] == '.';
    forall i | k + 1 <= i < k + 1 + |d| ensures IsDigit(s[i]) {
      assert s[i] == t[i - start] == d[i - k - 1];
    }
    DigitRunIs(s, k + 1, |d|);
  }

  lemma {:induction false} MatchIsNewlineFree(s: string, start: nat, a: string, d: string, b: string)
    requires MatchAt(s, start, a, d, b)
    ensures NewlineFree(s[start..start + |a| + |d| + |b| + 2])
  {
    assert NewlineFree(d);
  }

  lemma {:induction false} MatchStaysInLine(s: string, start: nat, a: string, d: string, b: string)
    requires MatchAt(s, start, a, d, b)
    requires start <= LineLength(s)
    ensures MatchAt(s[..LineLength(s)], start, a, d, b)
  {
    var n := LineLength(s);
    var len := |a| + |d| + |b| + 2;
    var t := s[start..start + len];
    MatchIsNewlineFree(s, start, a, d, b);
    assert forall i | start <= i < start + len :: s[i] == t[i - start] != '\n';
    assert start + len <= n;
    assert s[..n][start..start + len] == t;
  }

  lemma {:induction false} MatchMoves(s: string, n: nat, start: nat, a: string, d: string, b: string)
    requires n <= |s|
    ensures MatchAt(s[n..], start, a, d, b) <==> MatchAt(s, start + n, a, d, b)
  {
    var len := |a| + |d| + |b| + 2;
    if start + n + len <= |s| {
      assert s[n..][start..start + len] == s[start + n..start + n + len];
    }
  }

  /** The parser misses no match and returns the one a leftmost, greedy matcher selects. */
  lemma {:induction false} SubmatchesAreLeftmostGreedy(s: string)
    ensures Submatches(s).None? ==> forall start: nat, a, d, b :: !MatchAt(s, start, a, d, b)
    ensures Submatches(s).Some? ==>
      exists start: nat :: SelectedGroups(s, start, Submatches(s).value)
    decreases |s|
  {
    hide MatchAt, Selected, SelectedGroups, GroupsAt, LineLength, LastHit, Hit;
    var n := LineLength(s);
    var k := LastHit(s[..n], n);
    if k >= 0 {
      FirstLineMatch(s, k);
    } else {
      forall start: nat, a, d, b | MatchAt(s, start, a, d, b) ensures n < start < |s| {
        NoMatchInFirstLine(s, start, a, d, b);
      }
      if n < |s| {
        SubmatchesAreLeftmostGreedy(s[n + 1..]);
        LaterLineMatch(s, n + 1);
      }
    }
  }

  lemma {:induction false} NoMatchInFirstLine(s: string, start: nat, a: string, d: string, b: string)
    requires MatchAt(s, start, a, d, b)
    requires LastHit(s[..LineLength(s)], LineLength(s)) < 0
    ensures LineLength(s) < start < |s|
  {
    if start <= LineLength(s) {
      MatchStaysInLine(s, start, a, d, b);
      SplitIsHit(s[..LineLength(s)], start, a, d, b);
      assert false;
    }
  }

  lemma {:induction false} FirstLineMatch(s: string, k: nat)
    requires k == LastHit(s[..LineLength(s)], LineLength(s))
    ensures SelectedGroups(s, 0, GroupsAt(s[..LineLength(s)], k))
  {
    var n := LineLength(s);
    var line := s[..n];
    var g := GroupsAt(line, k);
    assert s[0..n] == line;
    assert NewlineFree(g.prefix) && NewlineFree(g.tail);
    assert MatchAt(s, 0, g.prefix, g.digits, g.tail);
    forall start: nat, a, d, b | MatchAt(s, start, a, d, b)
      ensures start == 0 ==> |a| <= k && (|a| == k ==> |b| <= |g.tail|)
    {
      if start == 0 { FirstLineGreedy(s, k, a, d, b); }
    }
  }

  lemma {:induction false} FirstLineGreedy(s: string, k: nat, a: string, d: string, b: string)
    requires k == LastHit(s[..LineLength(s)], LineLength(s))
    requires MatchAt(s, 0, a, d, b)
    ensures |a| <= k && (|a| == k ==> |b| <= |GroupsAt(s[..LineLength(s)], k).tail|)
  {
    MatchStaysInLine(s, 0, a, d, b);
    SplitIsHit(s[..LineLength(s)], 0, a, d, b);
  }

  lemma {:induction false} LaterLineMatch(s: string, n: nat)
    requires n <= |s| && Submatches(s) == Submatches(s[n..])
    requires forall start: nat, a, d, b | MatchAt(s, start, a, d, b) :: start >= n
    requires Submatches(s).None? ==> forall start: nat, a, d, b :: !MatchAt(s[n..], start, a, d, b)
    requires Submatches(s).Some? ==>
      exists start: nat :: SelectedGroups(s[n..], start, Submatches(s).value)
    ensures Submatches(s).None? ==> forall start: nat, a, d, b :: !MatchAt(s, start, a, d, b)
    ensures Submatches(s).Some? ==>
      exists start: nat :: SelectedGroups(s, start, Submatches(s).value)
  {
    hide MatchAt, Submatches;
    forall start: nat, a, d, b | MatchAt(s, start, a, d, b)
      ensures start >= n && MatchAt(s[n..], start - n, a, d, b)
    {
      MatchMoves(s, n, start - n, a, d, b);
    }
    if Submatches(s).Some? {
      var g := Submatches(s).value;
      var start: nat :| SelectedGroups(s[n..], start, g);
      MatchMoves(s, n, start, g.prefix, g.digits, g.tail);
      assert SelectedGroups(s, start + n, g);
    }
  }

  // ----- reading a reported name -----

  datatype Parsed = Parsed(cluster: string, ordinal: nat, namespace: string)

  predicate EndsWith(s: string, suffix: string) {
    |s| >= |suffix| && s[|s| - |suffix|..] == suffix
  }

  function TrimSuffix(s: string, suffix: string): string {
    if EndsWith(s, suffix) then s[..|s| - |suffix|] else s
  }

  lemma {:induction false} SubmatchDigits(s: string)
    ensures Submatches(s).Some? ==> AllDigits(Submatches(s).value.digits)
    decreases |s|
  {
    var n := LineLength(s);
    if LastHit(s[..n], n) < 0 && n < |s| { SubmatchDigits(s[n + 1..]); }
  }

  /** No match, or an ordinal beyond int32, is an error. */
  function ParseName(name: string, m: Member): Option<Parsed> {
    match Submatches(name)
    case None => None
    case Some(Groups(prefix, digits, namespace)) =>
      SubmatchDigits(name);
      var ordinal := ParseDigits(digits);
      if ordinal > MAX_INT32 then None
      else Some(Parsed(TrimSuffix(prefix, "-" + TypeName(m)), ordinal, namespace))
  }

  lemma {:induction false} HitShift(p: string, s: string, k: nat)
    requires k < |s|
    ensures Hit(p + s, |p| + k) == Hit(s, k)
  {
    DigitRunIs(p + s, |p| + k + 1, DigitRun(s, k + 1));
  }

  /** The last hit of a printed line is the dash before the ordinal, unless the tail has one. */
  lemma {:induction false} LastHitOfPrinted(pod: string, d: string, tail: string)
    requires AllDigits(d) && |d| >= 1
    ensures var line := pod + "-" + d + "." + tail;
      var k := LastHit(line, |line|);
      && DigitRun(line, |pod| + 1) == |d|
      && if NoHit(tail) then k == |pod| else k > |pod| + |d|
  {
    hide DigitRun, LastHit;
    var p := pod + "-" + d + ".";
    var line := p + tail;
    DigitRunIs(line, |pod| + 1, |d|);
    assert Hit(line, |pod|);
    forall j: nat | |pod| < j < |p| ensures !Hit(line, j) {
      assert line[j] == if j - |pod| - 1 < |d| then d[j - |pod| - 1] else '.';
    }
    forall j: nat | |p| <= j < |line| ensures Hit(line, j) == Hit(tail, j - |p|) {
      HitShift(p, tail, j - |p|);
    }
    if !NoHit(tail) {
      assert Hit(line, LastHit(tail, |tail|) + |p|);
    }
  }

  lemma {:induction false} TrimPrinted(cluster: string, m: Member)
    ensures TrimSuffix(MemberName(cluster, m), "-" + TypeName(m)) == cluster
  {
    assert MemberName(cluster, m) == cluster + ("-" + TypeName(m));
  }

  lemma {:induction false} GroupsOfPrinted(pod: string, d: string, tail: string)
    requires AllDigits(d) && |d| >= 1
    ensures var line := pod + "-" + d + "." + tail;
      var k := LastHit(line, |line|);
      && k >= 0
      && (NoHit(tail) ==> GroupsAt(line, k) == Groups(pod, d, tail))
      && (!NoHit(tail) ==> |GroupsAt(line, k).tail| < |tail|)
  {
    hide LastHit, Hit, NoHit, DigitRun;
    var line := pod + "-" + d + "." + tail;
    LastHitOfPrinted(pod, d, tail);
    if NoHit(tail) {
      var k := |pod|;
      assert line[..k] == pod;
      assert line[k + 1..k + 1 + |d|] == d;
      assert line[k + 2 + |d|..] == tail;
    }
  }

  /** What the parser makes of a printed name, by the first line of its tail. */
  lemma {:induction false} SubmatchesOfPrinted(pod: string, d: string, tail: string)
    requires NewlineFree(pod) && AllDigits(d) && |d| >= 1
    ensures var found := Submatches(pod + "-" + d + "." + tail);
      var first := tail[..LineLength(tail)];
      && found.Some?
      && (NoHit(first) ==> found.value == Groups(pod, d, first))
      && (!NoHit(first) ==> |found.value.tail| < |first|)
  {
    var s := pod + "-" + d + "." + tail;
    var first := tail[..LineLength(tail)];
    var line := pod + "-" + d + "." + first;
    assert NewlineFree(line) by { assert NewlineFree(d); }
    assert s == (pod + "-" + d + ".") + tail;
    assert line == (pod + "-" + d + ".") + first;
    assert s[..|line|] == line;
    LineLengthIs(s, |line|);
    GroupsOfPrinted(pod, d, first);
  }

  /** Printing and reading back returns the cluster, the ordinal and the namespace exactly when
      the ordinal fits int32 and the namespace has no newline and no dash-digits-dot. */
  lemma {:induction false} NameRoundTrip(cluster: string, m: Member, ordinal: nat, namespace: string)
    requires NewlineFree(cluster)
    ensures ParseName(RegisteredName(cluster, m, ordinal, namespace), m) == Some(Parsed(cluster, ordinal, namespace))
       <==> ordinal <= MAX_INT32 && NewlineFree(namespace) && NoHit(namespace)
  {
    hide Submatches, LineLength, LastHit, Digits, ParseDigits, TypeName, TrimSuffix;
    var n := LineLength(namespace);
    var pod, d := MemberName(cluster, m), Digits(ordinal);
    SubmatchesOfPrinted(pod, d, namespace);
    assert RegisteredName(cluster, m, ordinal, namespace) == pod + "-" + d + "." + namespace;
    assert NewlineFree(namespace) <==> n == |namespace|;
    assert n == |namespace| ==> namespace[..n] == namespace;
    DigitsRoundTrip(ordinal);
    TrimPrinted(cluster, m);
  }

  /** Namespaces are dot-free in Kubernetes, so they round-trip. */
  lemma {:induction false} DotFreeHasNoHit(s: string)
    requires '.' !in s
    ensures NoHit(s)
  {
  }
}
