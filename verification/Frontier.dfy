/** The tasks that may start now, in the order they are served. */
module Frontiers {
  import opened Dag
  import opened Waves
  import opened Tasks

  function ReadyOf(rows: Rows, order: seq<TaskId>): seq<TaskId> {
    if order == [] then []
    else
      var last := |order| - 1;
      ReadyOf(rows, order[..last])
      + if IsReady(EdgesOf(rows), BoardOf(rows), order[last]) then [order[last]] else []
  }

  function Priority(rows: Rows, t: TaskId): nat {
    if t in rows then rows[t].spec.priority else 0
  }

  /** Put `t` behind everything at least as urgent. */
  function InsertByPriority(rows: Rows, s: seq<TaskId>, t: TaskId): seq<TaskId> {
    if s == [] || Priority(rows, s[|s| - 1]) >= Priority(rows, t) then s + [t]
    else InsertByPriority(rows, s[..|s| - 1], t) + [s[|s| - 1]]
  }

  function SortByPriority(rows: Rows, s: seq<TaskId>): seq<TaskId> {
    if s == [] then [] else InsertByPriority(rows, SortByPriority(rows, s[..|s| - 1]), s[|s| - 1])
  }

  /** Tasks whose dependencies have all completed, highest priority first, planner order among equals. */
  function Frontier(rows: Rows, order: seq<TaskId>): seq<TaskId> {
    SortByPriority(rows, ReadyOf(rows, order))
  }

  ghost predicate Precedes(order: seq<TaskId>, a: TaskId, b: TaskId) {
    exists i, j :: 0 <= i < j < |order| && order[i] == a && order[j] == b
  }

  /** `a` is served before `b`: more urgent, or as urgent and planned earlier. */
  ghost predicate ServedBefore(rows: Rows, order: seq<TaskId>, a: TaskId, b: TaskId) {
    || Priority(rows, a) > Priority(rows, b)
    || (Priority(rows, a) == Priority(rows, b) && Precedes(order, a, b))
  }

  ghost predicate Served(rows: Rows, order: seq<TaskId>, s: seq<TaskId>) {
    forall i, j :: 0 <= i < j < |s| ==> ServedBefore(rows, order, s[i], s[j])
  }

  lemma ServedGrows(rows: Rows, order: seq<TaskId>, s: seq<TaskId>, last: TaskId)
    requires Served(rows, order, s) && forall i :: 0 <= i < |s| ==> ServedBefore(rows, order, s[i], last)
    ensures Served(rows, order, s + [last])
  {
    hide ServedBefore;
  }

  lemma {:induction false} InsertedIsAmong(rows: Rows, s: seq<TaskId>, t: TaskId)
    ensures multiset(InsertByPriority(rows, s, t)) == multiset(s) + multiset{t}
    ensures forall x :: x in InsertByPriority(rows, s, t) ==> x == t || x in s
  {
    if s != [] {
      var init := s[..|s| - 1];
      assert s == init + [s[|s| - 1]];
      InsertedIsAmong(rows, init, t);
    }
  }

  lemma {:induction false} InsertServed(rows: Rows, order: seq<TaskId>, s: seq<TaskId>, t: TaskId)
    requires Served(rows, order, s) && forall i :: 0 <= i < |s| ==> Precedes(order, s[i], t)
    ensures Served(rows, order, InsertByPriority(rows, s, t))
    ensures multiset(InsertByPriority(rows, s, t)) == multiset(s) + multiset{t}
  {
    InsertedIsAmong(rows, s, t);
    if s == [] {
    } else if Priority(rows, s[|s| - 1]) >= Priority(rows, t) {
      forall i | 0 <= i < |s|
        ensures ServedBefore(rows, order, s[i], t)
      {
        assert i < |s| - 1 ==> ServedBefore(rows, order, s[i], s[|s| - 1]);
      }
      ServedGrows(rows, order, s, t);
    } else {
      var init, last := s[..|s| - 1], s[|s| - 1];
      InsertServed(rows, order, init, t);
      InsertedIsAmong(rows, init, t);
      var r := InsertByPriority(rows, init, t);
      forall i | 0 <= i < |r|
        ensures ServedBefore(rows, order, r[i], last)
      {
        assert r[i] in r;
        if r[i] != t {
          assert r[i] in init;
        }
      }
      ServedGrows(rows, order, r, last);
    }
  }

  lemma {:induction false} SortServed(rows: Rows, order: seq<TaskId>, s: seq<TaskId>)
    requires forall i, j :: 0 <= i < j < |s| ==> Precedes(order, s[i], s[j])
    ensures Served(rows, order, SortByPriority(rows, s))
    ensures multiset(SortByPriority(rows, s)) == multiset(s)
  {
    if s != [] {
      var init, last := s[..|s| - 1], s[|s| - 1];
      SortServed(rows, order, init);
      assert s == init + [last];
      var sorted := SortByPriority(rows, init);
      forall i | 0 <= i < |sorted|
        ensures Precedes(order, sorted[i], last)
      {
        assert sorted[i] in multiset(init);
        assert sorted[i] in init;
      }
      InsertServed(rows, order, sorted, last);
    }
  }

  lemma {:induction false} ReadyInOrder(rows: Rows, order: seq<TaskId>, n: nat)
    requires n <= |order| && NoRepeats(order)
    ensures var s := ReadyOf(rows, order[..n]);
            && (forall i, j :: 0 <= i < j < |s| ==> Precedes(order, s[i], s[j]))
            && (forall t :: t in s <==> t in order[..n] && IsReady(EdgesOf(rows), BoardOf(rows), t))
  {
    if n > 0 {
      assert order[..n][..n - 1] == order[..n - 1];
      assert order[..n] == order[..n - 1] + [order[n - 1]];
      ReadyInOrder(rows, order, n - 1);
      var earlier := ReadyOf(rows, order[..n - 1]);
      forall t | t in earlier
        ensures Precedes(order, t, order[n - 1])
      {
        var i :| 0 <= i < n - 1 && order[..n - 1][i] == t;
        assert order[i] == t;
      }
      var s := ReadyOf(rows, order[..n]);
      assert s == earlier || s == earlier + [order[n - 1]];
      forall i, j | 0 <= i < j < |s|
        ensures Precedes(order, s[i], s[j])
      {
        assert s[i] == earlier[i] && earlier[i] in earlier;
        assert j < |earlier| ==> s[j] == earlier[j];
      }
    }
  }

  /** The frontier holds each ready task once, and nothing else, in the order it is to be served. */
  lemma FrontierIsExact(rows: Rows, order: seq<TaskId>)
    requires WellFormed(rows, order)
    ensures var f := Frontier(rows, order);
            && NoRepeats(f)
            && Served(rows, order, f)
            && forall t :: t in f <==> IsReady(EdgesOf(rows), BoardOf(rows), t)
  {
    assert order[..|order|] == order;
    var s, f := ReadyOf(rows, order), Frontier(rows, order);
    ReadyInOrder(rows, order, |order|);
    SortServed(rows, order, s);
    forall t
      ensures t in f <==> t in s
    {
      assert t in f <==> t in multiset(f);
    }
    forall i, j | 0 <= i < j < |f|
      ensures f[i] != f[j]
    {
      assert ServedBefore(rows, order, f[i], f[j]);
    }
  }

  /** That is: by falling priority, and in planner order among equals. */
  lemma FrontierIsByPriority(rows: Rows, order: seq<TaskId>, i: nat, j: nat)
    requires WellFormed(rows, order) && i < j < |Frontier(rows, order)|
    ensures var a, b := Frontier(rows, order)[i], Frontier(rows, order)[j];
            && a in rows && b in rows && rows[a].spec.priority >= rows[b].spec.priority
            && (rows[a].spec.priority == rows[b].spec.priority ==> Precedes(order, a, b))
  {
    FrontierIsExact(rows, order);
    var f := Frontier(rows, order);
    hide Frontier;
    assert IsReady(EdgesOf(rows), BoardOf(rows), f[i]) && IsReady(EdgesOf(rows), BoardOf(rows), f[j]);
    assert ServedBefore(rows, order, f[i], f[j]);
  }

  /** And it holds exactly the tasks not started yet all of whose dependencies are known and completed. */
  lemma FrontierIsTheStartable(rows: Rows, order: seq<TaskId>, t: TaskId)
    requires WellFormed(rows, order)
    ensures t in Frontier(rows, order) <==>
              && t in rows && (rows[t].status == Pending || rows[t].status == Ready)
              && forall d :: d in rows[t].spec.dependencies ==> d in rows && rows[d].status == Completed
  {
    FrontierIsExact(rows, order);
    hide Frontier; hide Served;
    if t in rows {
      assert EdgesOf(rows)[t] == rows[t].spec.dependencies && BoardOf(rows)[t] == rows[t].status;
      assert forall d :: d in rows ==> BoardOf(rows)[d] == rows[d].status;
    }
  }
}
