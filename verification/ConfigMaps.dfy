/** Which config map a member's pods use: a name with a digest of the data, kept as long as the
    configuration means the same. */
module ConfigMaps {
  import opened Api

  const CONFIG_FILE := "config-file"
  const STARTUP_SCRIPT := "startup-script"

  type Data = map<string, string>

  datatype Strategy = InPlace | RollingUpdate | UnknownStrategy(text: string)

  datatype Fetched = Found(data: Data) | NotFound | GetFailed

  predicate IsHexDigit(c: char) { '0' <= c <= '9' || 'a' <= c <= 'f' }

  /** A SHA-256 sum as Sha256Sum prints it. */
  type Sum = s: string | |s| == 64 && forall i | 0 <= i < |s| :: IsHexDigit(s[i])
    witness seq(64, _ => '0')

  /** TOML decoding, equality of decoded documents, and the sum of the data: any functions at all. */
  datatype Tools = Tools(decode: string -> Option<string>, same: (string, string) -> bool, sum: Data -> Sum)

  /** The two digits that `%x` prints for a hexadecimal digit's own character code: 0x30 to 0x39
      for the digits, 0x61 to 0x66 for the letters. */
  function HighDigit(c: char): char { if c <= '9' then '3' else '6' }
  function LowDigit(c: char): char
    requires IsHexDigit(c)
  {
    if c <= '9' then c else (c as int - 'a' as int + '1' as int) as char
  }

  /** The `%x` of a hexadecimal string. */
  function HexEncode(s: string): (r: string)
    requires forall i | 0 <= i < |s| :: IsHexDigit(s[i])
    ensures |r| == 2 * |s|
  {
    if s == "" then "" else [HighDigit(s[0]), LowDigit(s[0])] + HexEncode(s[1..])
  }

  lemma {:induction false} HexEncodeAt(s: string, i: nat)
    requires i < |s| && forall k | 0 <= k < |s| :: IsHexDigit(s[k])
    ensures HexEncode(s)[2 * i] == HighDigit(s[i]) && HexEncode(s)[2 * i + 1] == LowDigit(s[i])
  {
    if i > 0 { HexEncodeAt(s[1..], i - 1); }
  }

  /** The sum is already hexadecimal; it is encoded once more, and seven characters are kept. */
  function Suffix(sum: Sum): string { HexEncode(sum)[..7] }

  // ----- what is compared -----

  /** None when either text is not TOML. */
  function ConfigsEqual(t: Tools, a: string, b: string): Option<bool> {
    var x, y := t.decode(a), t.decode(b);
    if x.None? || y.None? then None else Some(t.same(x.value, y.value))
  }

  predicate Comparable(t: Tools, existing: Data, desired: Data) {
    CONFIG_FILE in existing && CONFIG_FILE in desired ==>
      ConfigsEqual(t, existing[CONFIG_FILE], desired[CONFIG_FILE]).Some?
  }

  /** Logically the same configuration: both have or lack the file and the script; the files mean
      the same, the scripts are the same text. */
  predicate SameConfig(t: Tools, existing: Data, desired: Data) {
    && (CONFIG_FILE in existing <==> CONFIG_FILE in desired)
    && (CONFIG_FILE in existing && CONFIG_FILE in desired ==>
          ConfigsEqual(t, existing[CONFIG_FILE], desired[CONFIG_FILE]) == Some(true))
    && (STARTUP_SCRIPT in existing <==> STARTUP_SCRIPT in desired)
    && (STARTUP_SCRIPT in existing && STARTUP_SCRIPT in desired ==> existing[STARTUP_SCRIPT] == desired[STARTUP_SCRIPT])
  }

  /** A file that means the same is written as it was. */
  function Rewritten(t: Tools, existing: Data, desired: Data): Data {
    if CONFIG_FILE in existing && CONFIG_FILE in desired
       && ConfigsEqual(t, existing[CONFIG_FILE], desired[CONFIG_FILE]) == Some(true)
    then desired[CONFIG_FILE := existing[CONFIG_FILE]] else desired
  }

  function WithDigest(t: Tools, base: string, data: Data): string { base + "-" + Suffix(t.sum(data)) }

  /** The name under a rolling update. */
  function NextName(t: Tools, inUse: string, existing: Data, base: string, desired: Data): (name: string)
    ensures name == inUse <==> SameConfig(t, existing, desired)
  {
    var name := WithDigest(t, base, Rewritten(t, existing, desired));
    if SameConfig(t, existing, desired) then inUse
    else if name == inUse then name + "-new" else name
  }

  // ----- the code -----

  class ConfigMap {
    var name: string
    var data: Data

    constructor (name: string, data: Data)
      ensures this.name == name && this.data == data
    {
      this.name, this.data := name, data;
    }

    method AddDigestSuffix(t: Tools)
      modifies this`name
      ensures name == WithDigest(t, old(name), data)
    {
      name := name + "-" + Suffix(t.sum(data));
    }
  }

  /** updateConfigMap; None is a decoding error. */
  method UpdateConfigMap(t: Tools, existing: ConfigMap, desired: ConfigMap) returns (dataEqual: Option<bool>)
    requires existing != desired
    modifies desired`data
    ensures dataEqual ==
      if Comparable(t, existing.data, old(desired.data))
      then Some(SameConfig(t, existing.data, old(desired.data)))
      else None
    ensures desired.data ==
      if dataEqual.None? then old(desired.data) else Rewritten(t, existing.data, old(desired.data))
  {
    var equal := true;
    var k := CONFIG_FILE;
    if (k in existing.data) != (k in desired.data) { equal := false; }
    if k in existing.data && k in desired.data {
      var same := ConfigsEqual(t, existing.data[k], desired.data[k]);
      if same == None { return None; }
      if same.value { desired.data := desired.data[k := existing.data[k]]; } else { equal := false; }
    }
    var script := STARTUP_SCRIPT;
    if (script in existing.data) != (script in desired.data) {
      equal := false;
    } else if script in existing.data && script in desired.data {
      if existing.data[script] != desired.data[script] { equal := false; }
    }
    return Some(equal);
  }

  method ConfirmNameByData(existing: ConfigMap, desired: ConfigMap, dataEqual: bool)
    requires existing != desired
    modifies desired`name
    ensures desired.name ==
      if dataEqual then existing.name
      else if old(desired.name) == existing.name then old(desired.name) + "-new" else old(desired.name)
  {
    if dataEqual && existing.name != desired.name { desired.name := existing.name; }
    if !dataEqual && existing.name == desired.name { desired.name := desired.name + "-new"; }
  }

  /** In place the name in use stays. Under a rolling update it stays exactly if the map in use
      has logically the same configuration, whatever the digest makes of the data. */
  method UpdateConfigMapIfNeed(t: Tools, strategy: Strategy, inUse: string, fetched: Fetched, desired: ConfigMap)
    returns (ok: bool)
    modifies desired
    ensures ok <==>
      || strategy.InPlace?
      || (strategy.RollingUpdate? && fetched.NotFound?)
      || (strategy.RollingUpdate? && fetched.Found? && Comparable(t, fetched.data, old(desired.data)))
    ensures strategy.InPlace? ==>
      desired.name == (if inUse != "" then inUse else old(desired.name)) && desired.data == old(desired.data)
    ensures ok && strategy.RollingUpdate? && fetched.Found? ==>
      && desired.name == NextName(t, inUse, fetched.data, old(desired.name), old(desired.data))
      && desired.data == Rewritten(t, fetched.data, old(desired.data))
      && (desired.name == inUse <==> SameConfig(t, fetched.data, old(desired.data)))
    ensures ok && strategy.RollingUpdate? && fetched.NotFound? ==>
      desired.name == WithDigest(t, old(desired.name), desired.data) && desired.data == old(desired.data)
    ensures !ok ==> desired.name == old(desired.name) && desired.data == old(desired.data)
  {
    hide ConfigsEqual, SameConfig, Comparable;
    if strategy == InPlace {
      if inUse != "" { desired.name := inUse; }
      return true;
    }
    if strategy != RollingUpdate { return false; }
    if fetched == NotFound {
      desired.AddDigestSuffix(t);
      return true;
    }
    if fetched == GetFailed { return false; }
    var existing := new ConfigMap(inUse, fetched.data);
    var dataEqual := UpdateConfigMap(t, existing, desired);
    if dataEqual == None { return false; }
    desired.AddDigestSuffix(t);
    ConfirmNameByData(existing, desired, dataEqual.value);
    return true;
  }

  // ----- runs -----

  /** The config maps that exist, and the one that the set's pod template names. */
  datatype State = State(inUse: string, store: map<string, Data>)

  /** One reconcile under the rolling update strategy: the configuration that the specification
      asks for, and whether the set was then written with the resulting name. */
  datatype Event = Event(base: string, desired: Data, adopted: bool)

  /** A map that is there already keeps its data: createOrUpdateObject puts the fetched data back
      over the desired one before it updates. */
  function Create(store: map<string, Data>, name: string, data: Data): map<string, Data> {
    if name in store then store else store[name := data]
  }

  predicate Sensible(t: Tools, s: State, e: Event) {
    s.inUse in s.store && Comparable(t, s.store[s.inUse], e.desired)
  }

  /** A map in use that is gone or cannot be compared is not part of these runs. */
  function After(t: Tools, s: State, e: Event): State {
    if !Sensible(t, s, e) then s
    else
      var name := NextName(t, s.inUse, s.store[s.inUse], e.base, e.desired);
      State(if e.adopted then name else s.inUse, Create(s.store, name, Rewritten(t, s.store[s.inUse], e.desired)))
  }

  /** Equality of documents as one expects it; reflect.DeepEqual has it except for NaN. */
  ghost predicate Equivalence(t: Tools) {
    && (forall x :: t.same(x, x))
    && (forall x, y :: t.same(x, y) ==> t.same(y, x))
    && (forall x, y, z :: t.same(x, y) && t.same(y, z) ==> t.same(x, z))
  }

  /** Data as the operator renders it. */
  predicate Rendered(t: Tools, d: Data) {
    CONFIG_FILE in d && STARTUP_SCRIPT in d && t.decode(d[CONFIG_FILE]).Some?
  }

  lemma {:induction false} SameConfigIsEquivalence(t: Tools, a: Data, b: Data, c: Data)
    requires Equivalence(t) && Rendered(t, a) && Rendered(t, b) && Rendered(t, c)
    ensures SameConfig(t, a, a)
    ensures SameConfig(t, a, b) ==> SameConfig(t, b, a)
    ensures SameConfig(t, a, b) && SameConfig(t, b, c) ==> SameConfig(t, a, c)
  {
  }

  lemma {:induction false} RewrittenIsSame(t: Tools, existing: Data, desired: Data)
    requires Equivalence(t) && Rendered(t, existing) && Rendered(t, desired)
    ensures Rendered(t, Rewritten(t, existing, desired))
    ensures SameConfig(t, Rewritten(t, existing, desired), desired)
  {
  }

  ghost predicate Sound(t: Tools, s: State) {
    s.inUse in s.store && forall n | n in s.store :: Rendered(t, s.store[n])
  }

  /** The name that a reconcile arrives at is free, or its map says what is desired. */
  predicate NoClash(t: Tools, s: State, e: Event)
    requires s.inUse in s.store
  {
    var name := NextName(t, s.inUse, s.store[s.inUse], e.base, e.desired);
    name in s.store ==> SameConfig(t, s.store[name], e.desired)
  }

  /** One reconcile: the name in use changes exactly if the set was written and the configuration
      in use differs from the desired one; no existing map is altered; and the map arrived at has
      the desired configuration exactly if its name did not clash. */
  lemma {:induction false} StepMeaning(t: Tools, s: State, e: Event)
    requires Equivalence(t) && Sound(t, s) && Rendered(t, e.desired)
    ensures var after := After(t, s, e);
      && Sound(t, after)
      && (after.inUse != s.inUse <==> e.adopted && !SameConfig(t, s.store[s.inUse], e.desired))
      && (forall n | n in s.store :: n in after.store && after.store[n] == s.store[n])
      && (e.adopted ==> (SameConfig(t, after.store[after.inUse], e.desired) <==> NoClash(t, s, e)))
  {
    hide SameConfig, Rewritten;
    RewrittenIsSame(t, s.store[s.inUse], e.desired);
    assert Comparable(t, s.store[s.inUse], e.desired);
  }

  function Run(t: Tools, s: State, events: seq<Event>): State {
    if events == [] then s
    else After(t, Run(t, s, events[..|events| - 1]), events[|events| - 1])
  }

  /** The configuration of the last reconcile that wrote the set. */
  function LastAdopted(first: Data, events: seq<Event>): Data {
    if events == [] then first
    else if events[|events| - 1].adopted then events[|events| - 1].desired
    else LastAdopted(first, events[..|events| - 1])
  }

  ghost predicate Clean(t: Tools, s: State, events: seq<Event>)
  {
    forall i | 0 <= i < |events| ::
      && Rendered(t, events[i].desired)
      && Run(t, s, events[..i]).inUse in Run(t, s, events[..i]).store
      && NoClash(t, Run(t, s, events[..i]), events[i])
  }

  lemma {:induction false} CleanFront(t: Tools, s: State, events: seq<Event>)
    requires events != [] && Clean(t, s, events)
    ensures Clean(t, s, events[..|events| - 1])
  {
    hide Run, NoClash, Rendered;
    var front := events[..|events| - 1];
    forall i | 0 <= i < |front|
      ensures front[..i] == events[..i] && front[i] == events[i]
    {
    }
  }

  /** Over a run without clashes the map in use always has the configuration adopted last, so the
      name changes at exactly those reconciles that adopt a configuration that means something
      else than the one adopted before. */
  lemma {:induction false} NameFollowsConfig(t: Tools, s: State, events: seq<Event>)
    requires Equivalence(t) && Sound(t, s) && Clean(t, s, events)
    ensures var now := Run(t, s, events);
      Sound(t, now) && SameConfig(t, now.store[now.inUse], LastAdopted(s.store[s.inUse], events))
    ensures events != [] ==>
      var before, e := Run(t, s, events[..|events| - 1]), events[|events| - 1];
      Run(t, s, events).inUse != before.inUse <==>
        e.adopted && !SameConfig(t, LastAdopted(s.store[s.inUse], events[..|events| - 1]), e.desired)
  {
    hide SameConfig, NoClash, After, Rendered;
    if events == [] {
      SameConfigIsEquivalence(t, s.store[s.inUse], s.store[s.inUse], s.store[s.inUse]);
    } else {
      var front, e := events[..|events| - 1], events[|events| - 1];
      CleanFront(t, s, events);
      NameFollowsConfig(t, s, front);
      var before := Run(t, s, front);
      StepMeaning(t, before, e);
      LastAdoptedIsRendered(t, s, front);
      var last := LastAdopted(s.store[s.inUse], front);
      SameConfigIsEquivalence(t, before.store[before.inUse], last, e.desired);
      SameConfigIsEquivalence(t, last, before.store[before.inUse], e.desired);
    }
  }

  lemma {:induction false} LastAdoptedIsRendered(t: Tools, s: State, events: seq<Event>)
    requires Sound(t, s) && Clean(t, s, events)
    ensures Rendered(t, LastAdopted(s.store[s.inUse], events))
  {
    hide Rendered, NoClash, Run;
    if events != [] {
      CleanFront(t, s, events);
      LastAdoptedIsRendered(t, s, events[..|events| - 1]);
    }
  }

  // ----- how many names there are -----

  function Value(c: char): (n: nat)
    requires IsHexDigit(c)
    ensures n < 16 && (n >= 10 <==> 'a' <= c)
  {
    if c <= '9' then c as int - 48 else c as int - 87
  }

  /** All that the suffix shows of the sum: three digits, and whether the fourth is a letter. */
  function Shown(sum: Sum): (n: nat)
    ensures n < 8192
  {
    512 * Value(sum[0]) + 32 * Value(sum[1]) + 2 * Value(sum[2]) + if Value(sum[3]) >= 10 then 1 else 0
  }

  lemma {:induction false} DigitShown(c: char, d: char)
    requires IsHexDigit(c) && IsHexDigit(d)
    ensures HighDigit(c) == HighDigit(d) <==> (Value(c) >= 10 <==> Value(d) >= 10)
    ensures HighDigit(c) == HighDigit(d) && LowDigit(c) == LowDigit(d) <==> Value(c) == Value(d)
  {
  }

  lemma {:induction false} SuffixShows(a: Sum, b: Sum)
    ensures Suffix(a) == Suffix(b) <==> Shown(a) == Shown(b)
  {
    hide HighDigit, LowDigit, Value, HexEncode;
    var x, y := HexEncode(a), HexEncode(b);
    forall i | 0 <= i < 4
      ensures x[2 * i] == y[2 * i] <==> (Value(a[i]) >= 10 <==> Value(b[i]) >= 10)
      ensures x[2 * i] == y[2 * i] && x[2 * i + 1] == y[2 * i + 1] <==> Value(a[i]) == Value(b[i])
    {
      HexEncodeAt(a, i);
      HexEncodeAt(b, i);
      DigitShown(a[i], b[i]);
    }
    assert Suffix(a) == [x[0], x[1], x[2], x[3], x[4], x[5], x[6]];
    assert Suffix(b) == [y[0], y[1], y[2], y[3], y[4], y[5], y[6]];
    assert x[0] == x[2 * 0] && x[1] == x[2 * 0 + 1] && x[2] == x[2 * 1] && x[3] == x[2 * 1 + 1];
    assert x[4] == x[2 * 2] && x[5] == x[2 * 2 + 1] && x[6] == x[2 * 3];
    assert y[0] == y[2 * 0] && y[1] == y[2 * 0 + 1] && y[2] == y[2 * 1] && y[3] == y[2 * 1 + 1];
    assert y[4] == y[2 * 2] && y[5] == y[2 * 2 + 1] && y[6] == y[2 * 3];
  }

  lemma {:induction false} Pigeonhole(items: set<Data>, f: Data -> nat, n: nat)
    requires |items| > n && forall d | d in items :: f(d) < n
    ensures exists a, b :: a in items && b in items && a != b && f(a) == f(b)
  {
    assert items != {};
    if n > 0 {
      if a, b :| a in items && b in items && a != b && f(a) == f(b) == n - 1 {
      } else if a :| a in items && f(a) == n - 1 {
        assert |items - {a}| == |items| - 1;
        Pigeonhole(items - {a}, f, n - 1);
      } else {
        Pigeonhole(items, f, n - 1);
      }
    }
  }

  /** At most 8192 suffixes exist, whatever the sum: among any 8193 configurations two share one. */
  lemma {:induction false} SuffixesRunOut(t: Tools, items: set<Data>)
    requires |items| > 8192
    ensures exists a, b :: a in items && b in items && a != b && Suffix(t.sum(a)) == Suffix(t.sum(b))
  {
    hide Suffix, Shown;
    var f := (d: Data) => Shown(t.sum(d));
    Pigeonhole(items, f, 8192);
    var a, b :| a in items && b in items && a != b && f(a) == f(b);
    SuffixShows(t.sum(a), t.sum(b));
  }

  // ----- a clash -----

  /** Both names are taken by other configurations, and the digest leads to the first. */
  ghost predicate Clash(t: Tools, s: State, e: Event, name: string) {
    && name in s.store && name + "-new" in s.store && (s.inUse == name || s.inUse == name + "-new")
    && forall n | n == name || n == name + "-new" ::
         && Comparable(t, s.store[n], e.desired) && !SameConfig(t, s.store[n], e.desired)
         && WithDigest(t, e.base, Rewritten(t, s.store[n], e.desired)) == name
  }

  /** `k` reconciles with the same specification. */
  function Repeat(t: Tools, s: State, e: Event, k: nat): State {
    if k == 0 then s else After(t, Repeat(t, s, e, k - 1), e)
  }

  /** After a clash nothing settles: each reconcile switches to the other name, so the pods are
      rolled again and again, and never to the configuration that is desired. */
  lemma {:induction false} ClashNeverSettles(t: Tools, s: State, e: Event, name: string, k: nat)
    requires Clash(t, s, e, name) && e.adopted
    ensures var now := Repeat(t, s, e, k);
      && now.store == s.store && now.inUse in now.store && !SameConfig(t, now.store[now.inUse], e.desired)
      && now.inUse == if k % 2 == 0 then s.inUse else if s.inUse == name then name + "-new" else name
  {
    hide SameConfig, Comparable, Rewritten, WithDigest;
    assert s.inUse in {name, name + "-new"};
    if k > 0 {
      ClashNeverSettles(t, s, e, name, k - 1);
      var before := Repeat(t, s, e, k - 1);
      assert before.inUse == name || before.inUse == name + "-new";
      assert |name + "-new"| > |name|;
    }
  }

  /** Three configurations that mean something else but share a suffix are enough, from a single
      map in use: adopting the second, and then asking for the third, is a clash. */
  lemma {:induction false} ClashIsReached(t: Tools, base: string, a: Data, b: Data, d: Data)
    requires forall x, y | x in {a, b, d} && y in {a, b, d} && x != y ::
      Comparable(t, x, y) && CONFIG_FILE in x && CONFIG_FILE in y && !SameFile(t, x, y)
    requires a != b && b != d && d != a
    requires Suffix(t.sum(a)) == Suffix(t.sum(b)) == Suffix(t.sum(d))
    ensures var name := WithDigest(t, base, a);
      Clash(t, After(t, State(name, map[name := a]), Event(base, b, true)), Event(base, d, true), name)
  {
    hide Suffix, ConfigsEqual;
    var name := WithDigest(t, base, a);
    var s := State(name, map[name := a]);
    assert Comparable(t, a, b) && Comparable(t, a, d) && Comparable(t, b, d);
    assert !SameFile(t, a, b) && !SameFile(t, a, d) && !SameFile(t, b, d);
    assert |name + "-new"| > |name|;
    assert NextName(t, name, a, base, b) == name + "-new";
  }

  predicate SameFile(t: Tools, a: Data, b: Data)
    requires CONFIG_FILE in a && CONFIG_FILE in b
  {
    ConfigsEqual(t, a[CONFIG_FILE], b[CONFIG_FILE]) == Some(true)
  }

  // ----- in place -----

  /** One reconcile under the in-place strategy. */
  function InPlaceAfter(s: State, e: Event): State {
    var name := if s.inUse != "" then s.inUse else e.base;
    State(if e.adopted then name else s.inUse, Create(s.store, name, e.desired))
  }

  function InPlaceRun(s: State, events: seq<Event>): State {
    if events == [] then s else InPlaceAfter(InPlaceRun(s, events[..|events| - 1]), events[|events| - 1])
  }

  /** In place, a changed configuration never arrives: whatever is asked for, the map in use keeps
      its name and the data that it was created with. */
  lemma {:induction false} InPlaceKeepsFirstData(s: State, events: seq<Event>)
    requires s.inUse != "" && s.inUse in s.store
    ensures InPlaceRun(s, events) == s
  {
    if events != [] { InPlaceKeepsFirstData(s, events[..|events| - 1]); }
  }

  /** The same from the start: the first configuration is the one that stays. */
  lemma {:induction false} FirstInPlaceStays(base: string, first: Event, events: seq<Event>)
    requires base != "" && first.base == base && first.adopted
    ensures InPlaceRun(InPlaceAfter(State("", map[]), first), events) == State(base, map[base := first.desired])
  {
    InPlaceKeepsFirstData(State(base, map[base := first.desired]), events);
  }
}
