/** The A2A server's bounded task map. */
module TaskMaps {
  import opened Dag
  import opened Wire

  const MAX_RETAINED_TASKS: nat := 512
  const MAX_ACTIVE_TASKS: nat := 32

  /** Where a task's run stands; one restored, finished or aborted takes no further step. */
  datatype Run = NoRun | Begun | Running

  /** One task's record; `handle` says whether its run can be aborted yet. */
  datatype Entry = Entry(task: WireTask, run: Run, handle: bool)

  type Entries = map<string, Entry>

  predicate Evictable(entries: Entries, id: string) {
    id !in entries || entries[id].task.state.Settled()
  }

  function Unsettled(entries: Entries): set<string> {
    set id | id in entries && !entries[id].task.state.Settled()
  }

  /** The evictable ids, oldest first. */
  function SettledIds(order: seq<string>, entries: Entries): seq<string> {
    if order == [] then []
    else (if Evictable(entries, order[0]) then [order[0]] else []) + SettledIds(order[1..], entries)
  }

  /** How many must go before one more fits. */
  function Surplus(entries: Entries): nat {
    if |entries| >= MAX_RETAINED_TASKS then |entries| - MAX_RETAINED_TASKS + 1 else 0
  }

  /** The oldest settled tasks, as many as must go, or as there are. */
  function Evicted(order: seq<string>, entries: Entries): seq<string> {
    var settled := SettledIds(order, entries);
    if Surplus(entries) <= |settled| then settled[..Surplus(entries)] else settled
  }

  function Dropping(order: seq<string>, ids: set<string>): seq<string> {
    if order == [] then []
    else (if order[0] in ids then [] else [order[0]]) + Dropping(order[1..], ids)
  }

  lemma {:induction false} SettledIdsConcat(a: seq<string>, b: seq<string>, entries: Entries)
    ensures SettledIds(a + b, entries) == SettledIds(a, entries) + SettledIds(b, entries)
  {
    if a == [] {
      assert a + b == b;
    } else {
      assert (a + b)[1..] == a[1..] + b;
      SettledIdsConcat(a[1..], b, entries);
    }
  }

  lemma {:induction false} SettledIdsAgree(order: seq<string>, e: Entries, f: Entries)
    requires forall id :: id in order ==> (Evictable(e, id) <==> Evictable(f, id))
    ensures SettledIds(order, e) == SettledIds(order, f)
  {
    if order != [] {
      SettledIdsAgree(order[1..], e, f);
    }
  }

  lemma {:induction false} SettledIdsAreSettled(order: seq<string>, entries: Entries)
    ensures forall id :: id in SettledIds(order, entries) <==> id in order && Evictable(entries, id)
    ensures NoRepeats(order) ==> NoRepeats(SettledIds(order, entries))
  {
    if order != [] {
      SettledIdsAreSettled(order[1..], entries);
    }
  }

  lemma {:induction false} DroppingKeeps(order: seq<string>, ids: set<string>)
    ensures forall id :: id in Dropping(order, ids) <==> id in order && id !in ids
    ensures NoRepeats(order) ==> NoRepeats(Dropping(order, ids))
  {
    if order != [] {
      DroppingKeeps(order[1..], ids);
    }
  }

  lemma {:induction false} DroppingConcat(a: seq<string>, b: seq<string>, ids: set<string>)
    ensures Dropping(a + b, ids) == Dropping(a, ids) + Dropping(b, ids)
  {
    if a == [] {
      assert a + b == b;
    } else {
      assert (a + b)[1..] == a[1..] + b;
      DroppingConcat(a[1..], b, ids);
    }
  }

  lemma {:induction false} DroppingNothing(order: seq<string>, ids: set<string>)
    requires forall id :: id in order ==> id !in ids
    ensures Dropping(order, ids) == order
  {
    if order != [] {
      DroppingNothing(order[1..], ids);
    }
  }

  lemma {:induction false} DroppingTwice(order: seq<string>, ids: set<string>, more: set<string>)
    ensures Dropping(Dropping(order, ids), more) == Dropping(order, ids + more)
  {
    if order != [] {
      DroppingTwice(order[1..], ids, more);
      DroppingConcat(if order[0] in ids then [] else [order[0]], Dropping(order[1..], ids), more);
    }
  }

  function WithoutAt<T>(s: seq<T>, p: nat): seq<T>
    requires p < |s|
  {
    s[..p] + s[p + 1..]
  }

  lemma {:induction false} DroppingOne(order: seq<string>, p: nat)
    requires NoRepeats(order) && p < |order|
    ensures Dropping(order, {order[p]}) == WithoutAt(order, p)
    decreases p
  {
    if p == 0 {
      DroppingNothing(order[1..], {order[0]});
      assert WithoutAt(order, 0) == order[1..];
    } else {
      DroppingOne(order[1..], p - 1);
      assert WithoutAt(order, p) == [order[0]] + WithoutAt(order[1..], p - 1);
    }
  }

  lemma {:induction false} NoneSettled(order: seq<string>, entries: Entries)
    requires forall id :: id in order ==> !Evictable(entries, id)
    ensures SettledIds(order, entries) == []
  {
    if order != [] {
      NoneSettled(order[1..], entries);
    }
  }

  /** Taking out the first evictable task leaves the other evictable ones, in order. */
  lemma FirstSettledGoes(order: seq<string>, entries: Entries, p: nat)
    requires NoRepeats(order) && p < |order| && Evictable(entries, order[p])
    requires forall j :: 0 <= j < p ==> !Evictable(entries, order[j])
    ensures SettledIds(order, entries) == [order[p]] + SettledIds(WithoutAt(order, p), entries - {order[p]})
  {
    var before, id, after := order[..p], order[p], order[p + 1..];
    assert order == before + ([id] + after);
    assert SettledIds([id], entries) == [id];
    assert id !in before && id !in after;
    hide SettledIds;
    SettledIdsConcat(before, [id] + after, entries);
    SettledIdsConcat([id], after, entries);
    NoneSettled(before, entries);
    SettledIdsConcat(before, after, entries - {id});
    NoneSettled(before, entries - {id});
    SettledIdsAgree(after, entries, entries - {id});
  }

  /** With fewer active tasks than records, some record can go. */
  lemma SomeoneIsSettled(order: seq<string>, entries: Entries)
    requires Lists(order, entries.Keys) && |Unsettled(entries)| < |entries|
    ensures SettledIds(order, entries) != []
  {
    SettledIdsAreSettled(order, entries);
    assert Unsettled(entries) <= entries.Keys;
    assert Unsettled(entries) != entries.Keys;
    var id :| id in entries && entries[id].task.state.Settled();
    assert id in SettledIds(order, entries);
  }

  /** Part of the way: what has gone are the oldest evictable tasks, and no more than must go. */
  ghost predicate MakingRoom(order0: seq<string>, entries0: Entries, order: seq<string>, entries: Entries,
                             evicted: seq<string>) {
    && evicted + SettledIds(order, entries) == SettledIds(order0, entries0)
    && entries == entries0 - ToSet(evicted)
    && order == Dropping(order0, ToSet(evicted))
    && |entries| + |evicted| == |entries0|
    && |evicted| <= Surplus(entries0)
  }

  lemma RoomStarts(order: seq<string>, entries: Entries)
    ensures MakingRoom(order, entries, order, entries, [])
  {
    DroppingNothing(order, {});
    assert entries == entries - {};
    assert ToSet<string>([]) == {};
    assert [] + SettledIds(order, entries) == SettledIds(order, entries);
  }

  lemma RoomGrows(order0: seq<string>, entries0: Entries, order: seq<string>, entries: Entries,
                  evicted: seq<string>, p: nat)
    requires MakingRoom(order0, entries0, order, entries, evicted)
    requires Lists(order, entries.Keys) && |entries| >= MAX_RETAINED_TASKS
    requires p < |order| && Evictable(entries, order[p])
    requires forall j :: 0 <= j < p ==> !Evictable(entries, order[j])
    ensures MakingRoom(order0, entries0, WithoutAt(order, p), entries - {order[p]}, evicted + [order[p]])
    ensures Lists(WithoutAt(order, p), (entries - {order[p]}).Keys) && |entries - {order[p]}| < |entries|
  {
    hide Dropping; hide SettledIds; hide Evictable; hide WithoutAt;
    var id := order[p];
    assert id in order;
    RemoveOne(entries, id);
    assert ToSet(evicted + [id]) == ToSet(evicted) + {id};
    assert entries - {id} == entries0 - (ToSet(evicted) + {id});
    FirstSettledGoes(order, entries, p);
    var left := SettledIds(WithoutAt(order, p), entries - {id});
    assert (evicted + [id]) + left == evicted + ([id] + left);
    OrderWithoutOne(order, entries, p);
    assert Dropping(order, {id}) == Dropping(order0, ToSet(evicted) + {id}) by {
      DroppingTwice(order0, ToSet(evicted), {id});
    }
  }

  lemma OrderWithoutOne(order: seq<string>, entries: Entries, p: nat)
    requires Lists(order, entries.Keys) && p < |order|
    ensures WithoutAt(order, p) == Dropping(order, {order[p]})
    ensures Lists(WithoutAt(order, p), (entries - {order[p]}).Keys)
  {
    hide Dropping; hide WithoutAt;
    DroppingOne(order, p);
    DroppingKeeps(order, {order[p]});
    assert (entries - {order[p]}).Keys == entries.Keys - {order[p]};
  }

  lemma RoomIsMade(order0: seq<string>, entries0: Entries, order: seq<string>, entries: Entries, evicted: seq<string>)
    requires MakingRoom(order0, entries0, order, entries, evicted)
    requires |entries| < MAX_RETAINED_TASKS || (forall id :: id in order ==> !Evictable(entries, id))
    ensures evicted == Evicted(order0, entries0)
    ensures entries == entries0 - ToSet(evicted)
    ensures order == Dropping(order0, ToSet(evicted))
  {
    hide Dropping;
    if |entries| < MAX_RETAINED_TASKS {
      hide SettledIds;
    } else {
      NoneSettled(order, entries);
    }
  }

  class TaskMap {
    var entries: Entries
    /** Insertion order, oldest first. */
    var order: seq<string>

    ghost predicate Valid()
      reads this
    {
      Lists(order, entries.Keys)
    }

    constructor ()
      ensures Valid() && entries == map[] && order == []
    {
      entries, order := map[], [];
    }

    method Active() returns (n: nat)
      ensures n == |Unsettled(entries)|
    {
      n := |Unsettled(entries)|;
    }

    method FirstSettled() returns (found: bool, position: nat)
      ensures found ==> position < |order| && Evictable(entries, order[position])
      ensures forall j :: 0 <= j < (if found then position else |order|) ==> !Evictable(entries, order[j])
      ensures found ==> position < |order|
    {
      position := 0;
      while position < |order|
        invariant position <= |order|
        invariant forall j :: 0 <= j < position ==> !Evictable(entries, order[j])
      {
        if Evictable(entries, order[position]) {
          return true, position;
        }
        position := position + 1;
      }
      found := false;
    }

    /** Drop the oldest settled tasks until one more fits. */
    method MakeRoom() returns (evicted: seq<string>)
      requires Valid()
      modifies this
      ensures Valid()
      ensures evicted == Evicted(old(order), old(entries))
      ensures entries == old(entries) - ToSet(evicted)
      ensures order == Dropping(old(order), ToSet(evicted))
    {
      ghost var order0, entries0 := order, entries;
      evicted := [];
      RoomStarts(order, entries);
      hide MakingRoom;
      while |entries| >= MAX_RETAINED_TASKS
        invariant Valid()
        invariant MakingRoom(order0, entries0, order, entries, evicted)
        decreases |entries|
      {
        var found, position := FirstSettled();
        if !found {
          break;
        }
        var id := order[position];
        RoomGrows(order0, entries0, order, entries, evicted, position);
        order := WithoutAt(order, position);
        entries := entries - {id};
        evicted := evicted + [id];
      }
      RoomIsMade(order0, entries0, order, entries, evicted);
    }

    /** Add a task that is not running. */
    method InsertSettled(task: WireTask)
      modifies this
      ensures entries == old(entries)[task.id := Entry(task, NoRun, false)]
      ensures order == old(order) + [task.id]
    {
      entries := entries[task.id := Entry(task, NoRun, false)];
      order := order + [task.id];
    }
  }

  lemma RemoveOne(entries: Entries, id: string)
    requires id in entries
    ensures |entries - {id}| == |entries| - 1
  {
    assert (entries - {id}).Keys == entries.Keys - {id};
    assert |entries.Keys| == |entries| && |(entries - {id}).Keys| == |entries - {id}|;
  }
}
