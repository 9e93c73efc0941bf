/** The linear search that both find-or-create lists use. */
module Search {

  /** The first position whose item has the key, or -1. */
  function FindPos<K(==), T>(key: K, items: seq<T>, keyOf: T -> K): (pos: int)
    ensures -1 <= pos < |items|
    ensures pos >= 0 ==> keyOf(items[pos]) == key
    ensures forall i | 0 <= i < |items| :: keyOf(items[i]) == key ==> 0 <= pos <= i
  {
    if items == [] then -1
    else if keyOf(items[0]) == key then 0
    else
      var rest := FindPos(key, items[1..], keyOf);
      if rest < 0 then -1 else rest + 1
  }

  /** Overwriting an item under its own key, or appending one, moves nothing. */
  lemma {:induction false} SamePosition<K, T>(items: seq<T>, r: seq<T>, key: K, keyOf: T -> K)
    requires |items| <= |r| <= |items| + 1
    requires forall i | 0 <= i < |items| :: keyOf(r[i]) == keyOf(items[i])
    ensures var p, q := FindPos(key, items, keyOf), FindPos(key, r, keyOf);
      && (p >= 0 ==> q == p)
      && (p < 0 && q >= 0 ==> q == |items| < |r| && keyOf(r[|items|]) == key)
      && (|r| > |items| && keyOf(r[|items|]) == key ==> q >= 0)
  {
    var p, q := FindPos(key, items, keyOf), FindPos(key, r, keyOf);
    if p >= 0 {
      assert keyOf(r[p]) == key;
      assert q < |items|;
    }
  }
}
