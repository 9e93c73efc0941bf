/** The list of sync entries kept in a member's status: a find-or-create list that behaves
    like a map from sync type to status. */
module SyncEntries {
  import opened Api
  import Search

  datatype Entry = Entry(name: SyncName, status: SyncStatus)

  function NameOf(e: Entry): SyncName { e.name }

  function FindPos(name: SyncName, entries: seq<Entry>): (pos: int)
    ensures -1 <= pos < |entries|
    ensures pos >= 0 ==> entries[pos].name == name
    ensures forall i | 0 <= i < |entries| :: entries[i].name == name ==> 0 <= pos <= i
  {
    Search.FindPos(name, entries, NameOf)
  }

  /** The stored status, or None for a sync type that was never set. */
  function Stored(entries: seq<Entry>, name: SyncName): Option<SyncStatus> {
    var pos := FindPos(name, entries);
    if pos >= 0 then Some(entries[pos].status) else None
  }

  function GetStatus(entries: seq<Entry>, name: SyncName): SyncStatus {
    match Stored(entries, name)
    case Some(s) => s
    case None => Unknown
  }

  ghost predicate UniqueNames(entries: seq<Entry>) {
    forall i, j | 0 <= i < j < |entries| :: entries[i].name != entries[j].name
  }

  /** Find-or-create, then overwrite the status. */
  function SetStatus(entries: seq<Entry>, name: SyncName, status: SyncStatus): (r: seq<Entry>)
    ensures forall n :: Stored(r, n) == if n == name then Some(status) else Stored(entries, n)
    ensures UniqueNames(entries) ==> UniqueNames(r)
  {
    var pos := FindPos(name, entries);
    var r := if pos >= 0 then entries[pos := Entry(name, status)] else entries + [Entry(name, status)];
    assert forall n :: Stored(r, n) == if n == name then Some(status) else Stored(entries, n) by {
      forall n
        ensures Stored(r, n) == if n == name then Some(status) else Stored(entries, n)
      {
        Search.SamePosition(entries, r, n, NameOf);
      }
    }
    r
  }

  /** The sync types whose entry is not Completed. */
  ghost function Pending(entries: seq<Entry>): set<SyncName> {
    set i | 0 <= i < |entries| && entries[i].status != Completed :: entries[i].name
  }

  ghost predicate AllCompleted(entries: seq<Entry>) {
    forall i | 0 <= i < |entries| :: entries[i].status == Completed
  }

  lemma {:induction false} PendingIsStored(entries: seq<Entry>, n: SyncName)
    requires UniqueNames(entries)
    ensures n in Pending(entries) <==> Stored(entries, n).Some? && Stored(entries, n).value != Completed
  {
    var pos := FindPos(n, entries);
    if n in Pending(entries) {
      var i :| 0 <= i < |entries| && entries[i].status != Completed && entries[i].name == n;
      assert pos == i;
    }
    if pos >= 0 && entries[pos].status != Completed {
      assert entries[pos].name in Pending(entries);
    }
  }

  lemma {:induction false} CompletedMeansNothingPending(entries: seq<Entry>)
    ensures AllCompleted(entries) <==> Pending(entries) == {}
  {
    if !AllCompleted(entries) {
      var i :| 0 <= i < |entries| && entries[i].status != Completed;
      assert entries[i].name in Pending(entries);
    }
  }

  /** Setting an entry changes what is pending in exactly that entry. */
  lemma {:induction false} SetStatusPending(entries: seq<Entry>, name: SyncName, status: SyncStatus)
    requires UniqueNames(entries)
    ensures Pending(SetStatus(entries, name, status)) ==
      if status == Completed then Pending(entries) - {name} else Pending(entries) + {name}
  {
    var r := SetStatus(entries, name, status);
    forall n ensures n in Pending(r) <==>
      if n == name then status != Completed else n in Pending(entries)
    {
      PendingIsStored(entries, n);
      PendingIsStored(r, n);
    }
  }

  // ----- the list as a map, over every sequence of calls -----

  /** One call of Ongoing, Completed, Failed or Unknown for one member. */
  datatype Call = Call(member: Member, name: SyncName, status: SyncStatus)

  /** The two members' lists. */
  datatype Lists = Lists(master: seq<Entry>, executor: seq<Entry>) {
    function Of(m: Member): seq<Entry> { if m.Master? then master else executor }
  }

  function Perform(lists: Lists, c: Call): Lists {
    if c.member.Master?
    then lists.(master := SetStatus(lists.master, c.name, c.status))
    else lists.(executor := SetStatus(lists.executor, c.name, c.status))
  }

  function PerformAll(lists: Lists, calls: seq<Call>): Lists {
    if calls == [] then lists
    else Perform(PerformAll(lists, calls[..|calls| - 1]), calls[|calls| - 1])
  }

  /** The last status that `calls` gave to `name` of `m`, searched from the end. */
  function LastSet(calls: seq<Call>, m: Member, name: SyncName): Option<SyncStatus> {
    if calls == [] then None
    else
      var c := calls[|calls| - 1];
      if c.member == m && c.name == name then Some(c.status)
      else LastSet(calls[..|calls| - 1], m, name)
  }

  /** The sync types in the order in which a member's list first saw them. */
  function NamesOf(entries: seq<Entry>): seq<SyncName> {
    seq(|entries|, i requires 0 <= i < |entries| => entries[i].name)
  }

  function FirstSetOrder(known: seq<SyncName>, calls: seq<Call>, m: Member): seq<SyncName> {
    if calls == [] then known
    else
      var before := FirstSetOrder(known, calls[..|calls| - 1], m);
      var c := calls[|calls| - 1];
      if c.member == m && c.name !in before then before + [c.name] else before
  }

  lemma {:induction false} SetStatusNames(entries: seq<Entry>, name: SyncName, status: SyncStatus)
    ensures NamesOf(SetStatus(entries, name, status)) ==
      if name in NamesOf(entries) then NamesOf(entries) else NamesOf(entries) + [name]
  {
    var pos := FindPos(name, entries);
    if pos >= 0 {
      assert NamesOf(entries)[pos] == name;
    }
  }

  /** Whatever calls are made, in whatever order and for whichever member, a member's list is
      the map of last-set values in first-set order, and the other member's calls do not show. */
  lemma {:induction false} ListRefinesMap(lists: Lists, calls: seq<Call>, m: Member, name: SyncName)
    requires UniqueNames(lists.Of(m))
    ensures UniqueNames(PerformAll(lists, calls).Of(m))
    ensures Stored(PerformAll(lists, calls).Of(m), name) ==
      match LastSet(calls, m, name)
      case Some(s) => Some(s)
      case None => Stored(lists.Of(m), name)
    ensures NamesOf(PerformAll(lists, calls).Of(m)) == FirstSetOrder(NamesOf(lists.Of(m)), calls, m)
  {
    hide SetStatus, FindPos, Stored;
    if calls != [] {
      var before := calls[..|calls| - 1];
      ListRefinesMap(lists, before, m, name);
      var c := calls[|calls| - 1];
      SetStatusNames(PerformAll(lists, before).Of(m), c.name, c.status);
    }
  }
}
