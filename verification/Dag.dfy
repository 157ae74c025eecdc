/** Dependency relations between tasks, independent of what the tasks are.

    `e[t]` lists the tasks `t` waits for. The theory here is what the plan
    validator, the wave scheduler and the planners share: cycles, topological
    orders, and the two facts that tie them together. */
module Dag {
  /** A task identifier. The program draws them from UUIDs; a serial number
      makes "fresh" expressible: a new id has a serial nothing else has. */
  datatype TaskId = TaskId(serial: nat)

  type Edges = map<TaskId, seq<TaskId>>

  ghost predicate NoRepeats<T>(s: seq<T>) {
    forall i, j :: 0 <= i < j < |s| ==> s[i] != s[j]
  }

  /** Every dependency names a task of the relation. */
  ghost predicate Closed(e: Edges) {
    forall t, d :: t in e && d in e[t] ==> d in e
  }

  /** A chain in which each task waits for the next one. */
  ghost predicate IsPath(e: Edges, p: seq<TaskId>) {
    && |p| >= 1
    && (forall i :: 0 <= i < |p| ==> p[i] in e)
    && (forall i :: 0 <= i < |p| - 1 ==> p[i + 1] in e[p[i]])
  }

  /** No task waits, directly or through others, for itself. */
  ghost predicate Acyclic(e: Edges) {
    forall p :: IsPath(e, p) && |p| >= 2 ==> p[0] != p[|p| - 1]
  }

  ghost predicate Earlier<T>(s: seq<T>, i: nat, x: T)
    requires i <= |s|
  {
    exists k :: 0 <= k < i && s[k] == x
  }

  /** `s` lists tasks so that each one comes after everything it waits for. */
  ghost predicate Topological(e: Edges, s: seq<TaskId>) {
    && NoRepeats(s)
    && (forall i :: 0 <= i < |s| ==> s[i] in e)
    && (forall i, d :: 0 <= i < |s| && d in e[s[i]] ==> Earlier(s, i, d))
  }

  function ToSet<T(==)>(s: seq<T>): set<T> {
    set x | x in s
  }

  ghost predicate Lists<T(!new)>(s: seq<T>, keys: set<T>) {
    NoRepeats(s) && forall x :: x in s <==> x in keys
  }

  lemma ListsAppend<T(!new)>(s: seq<T>, keys: set<T>, x: T)
    requires Lists(s, keys) && x !in keys
    ensures Lists(s + [x], keys + {x})
  {
    assert forall y :: y in s + [x] <==> y in s || y == x;
  }

  lemma {:induction false} NoRepeatsFits<T>(s: seq<T>, u: set<T>)
    requires NoRepeats(s) && forall i :: 0 <= i < |s| ==> s[i] in u
    ensures |s| <= |u|
    ensures |s| == |u| ==> forall x :: x in u ==> x in s
  {
    if s != [] {
      var last := |s| - 1;
      NoRepeatsFits(s[..last], u - {s[last]});
      assert forall x :: x in u ==> x == s[last] || x in u - {s[last]};
    } else if |u| == 0 {
      assert u == {};
    }
  }

  /** Along a path, positions in a topological order go down. */
  lemma {:induction false} PathDescends(e: Edges, s: seq<TaskId>, p: seq<TaskId>, i: nat)
    requires Topological(e, s) && IsPath(e, p) && i < |s| && p[0] == s[i]
    ensures |p| >= 2 ==> Earlier(s, i, p[|p| - 1])
  {
    if |p| >= 2 {
      assert p[1] in e[s[i]];
      assert Earlier(s, i, p[1]);
      var k :| 0 <= k < i && s[k] == p[1];
      var rest := p[1..];
      assert IsPath(e, rest);
      PathDescends(e, s, rest, k);
      assert rest[|rest| - 1] == p[|p| - 1];
    }
  }

  lemma TopologicalIsAcyclic(e: Edges, s: seq<TaskId>)
    requires Topological(e, s) && forall t :: t in e ==> t in s
    ensures Acyclic(e)
  {
    forall p | IsPath(e, p) && |p| >= 2
      ensures p[0] != p[|p| - 1]
    {
      var i :| 0 <= i < |s| && s[i] == p[0];
      PathDescends(e, s, p, i);
    }
  }

  /** `t` waits for a member of `u`. */
  ghost predicate WaitsIn(e: Edges, u: set<TaskId>, t: TaskId) {
    t in e && exists d :: d in e[t] && d in u
  }

  /** Everybody in `u` waits for somebody in `u`. */
  ghost predicate Stuck(e: Edges, u: set<TaskId>) {
    && u != {}
    && u <= e.Keys
    && forall t {:trigger WaitsIn(e, u, t)} :: t in u ==> WaitsIn(e, u, t)
  }

  /** From a set in which everybody waits for somebody, one can walk as long as one likes. */
  lemma {:induction false} Walk(e: Edges, u: set<TaskId>, n: nat) returns (p: seq<TaskId>)
    requires Stuck(e, u)
    ensures IsPath(e, p) && |p| == n + 1 && forall i :: 0 <= i < |p| ==> p[i] in u
  {
    if n == 0 {
      var t :| t in u;
      p := [t];
    } else {
      var q := Walk(e, u, n - 1);
      assert WaitsIn(e, u, q[n - 1]);
      var d :| d in e[q[n - 1]] && d in u;
      p := q + [d];
    }
  }

  /** What remains when nothing more can be drained contains a cycle. */
  lemma StuckSetHasCycle(e: Edges, u: set<TaskId>)
    requires Stuck(e, u)
    ensures !Acyclic(e)
  {
    var p := Walk(e, u, |u|);
    if NoRepeats(p) {
      NoRepeatsFits(p, u);
      assert false;
    }
    var i, j :| 0 <= i < j < |p| && p[i] == p[j];
    var cycle := p[i..j + 1];
    assert IsPath(e, cycle) && cycle[0] == cycle[|cycle| - 1];
  }

  lemma AppendTopological(e: Edges, s: seq<TaskId>, t: TaskId)
    requires Topological(e, s) && t in e && t !in s && forall d :: d in e[t] ==> d in s
    ensures Topological(e, s + [t])
  {
    var r := s + [t];
    forall i, d | 0 <= i < |r| && d in e[r[i]]
      ensures Earlier(r, i, d)
    {
      if i < |s| {
        assert Earlier(s, i, d);
        var k :| 0 <= k < i && s[k] == d;
        assert r[k] == d;
      } else {
        var k :| 0 <= k < |s| && s[k] == d;
        assert r[k] == d;
      }
    }
  }

  lemma {:induction false} ExtendTopological(e: Edges, s: seq<TaskId>) returns (r: seq<TaskId>)
    requires Closed(e) && Acyclic(e) && Topological(e, s)
    ensures Topological(e, r) && forall t :: t in e ==> t in r
    decreases |e.Keys| - |s|
  {
    NoRepeatsFits(s, e.Keys);
    var rest := set t | t in e && t !in s;
    if rest == {} {
      assert forall t :: t in e ==> t in rest || t in s;
      r := s;
    } else {
      if Stuck(e, rest) {
        StuckSetHasCycle(e, rest);
        assert false;
      }
      var t :| t in rest && !WaitsIn(e, rest, t);
      assert forall d :: d in e[t] ==> d in s;
      AppendTopological(e, s, t);
      var s' := s + [t];
      NoRepeatsFits(s', e.Keys);
      r := ExtendTopological(e, s');
    }
  }

  /** A closed acyclic relation can be put in an order that respects it, and only such a one can. */
  lemma AcyclicIffOrderable(e: Edges)
    requires Closed(e)
    ensures Acyclic(e) <==> exists s :: Topological(e, s) && forall t :: t in e ==> t in s
  {
    if Acyclic(e) {
      var s := ExtendTopological(e, []);
    }
    if s :| Topological(e, s) && forall t :: t in e ==> t in s {
      TopologicalIsAcyclic(e, s);
    }
  }
}
