/** How a plan ends when re-planning takes tasks out of it: which tasks are left waiting, which
    tasks still get to run, and how many passes that takes one task at a time.

    `over` are the tasks whose execution ends in a split; none of them is good. */
module Endings {
  import opened Dag
  import opened Waves
  import opened Attempts
  import opened Tasks
  import opened Replanning
  import opened Runs

  // ------------------------------------------------------------ who can still run

  /** Unfinished, and nothing it waits for would fail. */
  ghost function Alive(e: Edges, good: iset<TaskId>, b: Board): set<TaskId> {
    set t | t in b && !b[t].Terminal() && !Hopeless(e, good, t)
  }

  lemma HopelessAbove(e: Edges, good: iset<TaskId>, t: TaskId, d: TaskId)
    requires t in e && d in e && d in e[t] && (d !in good || Hopeless(e, good, d))
    ensures Hopeless(e, good, t)
  {
    if d !in good {
      assert IsPath(e, [t, d]);
    } else {
      var p :| IsPath(e, p) && |p| >= 2 && p[0] == d && p[|p| - 1] !in good;
      assert IsPath(e, [t] + p);
    }
  }

  /** As long as anything is alive, something is ready. */
  lemma AliveMeansReady(e: Edges, good: iset<TaskId>, replaced: set<TaskId>, b: Board)
    requires Closed(e) && Acyclic(e) && Settling(e, good, replaced, b) && Alive(e, good, b) != {}
    ensures exists t :: IsReady(e, b, t)
  {
    var alive := Alive(e, good, b);
    if forall t :: !IsReady(e, b, t) {
      forall t | t in alive
        ensures WaitsIn(e, alive, t)
      {
        assert !IsReady(e, b, t);
        var d :| d in e[t] && !b[d].Completed?;
        assert Unobstructed(replaced, b, d);
        if d !in good || Hopeless(e, good, d) {
          HopelessAbove(e, good, t, d);
        }
        assert d in alive;
      }
      StuckSetHasCycle(e, alive);
    }
  }

  lemma ReadyIsAlive(e: Edges, good: iset<TaskId>, replaced: set<TaskId>, b: Board, w: TaskId)
    requires Settling(e, good, replaced, b) && IsReady(e, b, w)
    ensures w in Alive(e, good, b)
  {
    ReadyIsNotHopeless(e, good, replaced, b, w);
  }

  // ----------------------------------------------------------- who is left waiting

  /** Something `t` waits for gets to run, fails, and is not split. */
  ghost predicate FailsBehind(e: Edges, good: iset<TaskId>, over: set<TaskId>, t: TaskId) {
    exists p :: IsPath(e, p) && |p| >= 2 && p[0] == t && Fails(e, good, over, p[|p| - 1])
  }

  ghost predicate Fails(e: Edges, good: iset<TaskId>, over: set<TaskId>, f: TaskId) {
    f !in good && f !in over && !Hopeless(e, good, f)
  }

  /** `t` waits for something that would not succeed, and all of that which runs is split. */
  ghost predicate LeftWaiting(e: Edges, good: iset<TaskId>, over: set<TaskId>, t: TaskId) {
    t in e && Hopeless(e, good, t) && !FailsBehind(e, good, over, t)
  }

  ghost function LeftBehind(e: Edges, good: iset<TaskId>, over: set<TaskId>): set<TaskId> {
    set t | t in e && LeftWaiting(e, good, over, t)
  }

  /** If nothing that somebody waits for is split, nobody is left waiting. */
  lemma LeavesAreHarmless(e: Edges, good: iset<TaskId>, over: set<TaskId>)
    requires Closed(e) && Acyclic(e)
    requires forall t, d :: t in e && d in e[t] ==> d !in over
    ensures LeftBehind(e, good, over) == {}
  {
    forall t | t in e && Hopeless(e, good, t)
      ensures FailsBehind(e, good, over, t)
    {
      SkippedIffFailedAncestor(e, good, t);
      var p :| IsPath(e, p) && |p| >= 2 && p[0] == t && FinalStatus(e, good, p[|p| - 1]).Failed?;
      assert p[|p| - 2 + 1] in e[p[|p| - 2]];
      assert Fails(e, good, over, p[|p| - 1]);
    }
  }

  /** If something that runs is split, and its dependent waits for nothing else that would
      fail, the dependent is left waiting. */
  lemma DependentIsLeft(e: Edges, good: iset<TaskId>, over: set<TaskId>, t: TaskId, d: TaskId)
    requires Closed(e) && t in e && d in e[t] && d in over && d !in good
    requires forall p :: IsPath(e, p) && |p| >= 2 && p[0] == t && p[|p| - 1] !in good ==> p[|p| - 1] == d
    ensures LeftWaiting(e, good, over, t)
  {
    HopelessAbove(e, good, t, d);
  }

  // ---------------------------------------------------------------------- the parts

  /** `more` adds parts: each waits only for good tasks, or for another part that does. */
  ghost predicate PartsFollow(e0: Edges, e: Edges, good: iset<TaskId>) {
    && Extends(e0, e)
    && forall x :: x in e && x !in e0 ==> PartFollows(e0, e, good, x)
  }

  ghost predicate PartFollows(e0: Edges, e: Edges, good: iset<TaskId>, x: TaskId)
    requires x in e
  {
    || !Hopeless(e, good, x)
    || (exists y :: y in e && y !in e0 && e[x] == [y] && !Hopeless(e, good, y))
  }

  lemma HopelessStays(e: Edges, more: Edges, good: iset<TaskId>, t: TaskId)
    requires Closed(e) && Extends(e, more) && t in e
    ensures Hopeless(e, good, t) <==> Hopeless(more, good, t)
  {
    ExtensionKeepsFinal(e, more, good, t);
  }

  lemma SplitExtends(e: Edges, w: TaskId, one: TaskId, two: TaskId)
    requires Closed(e) && w in e && one !in e && two !in e && one != two
    ensures Extends(e, SplitEdges(e, w, one, two)) && Closed(SplitEdges(e, w, one, two))
  {
  }

  /** The first part of a task that got to run gets to run; the second one does if the first succeeds. */
  lemma PartsHope(e: Edges, good: iset<TaskId>, w: TaskId, one: TaskId, two: TaskId)
    requires Closed(e) && w in e && one !in e && two !in e && one != two && !Hopeless(e, good, w)
    ensures var more := SplitEdges(e, w, one, two);
            && !Hopeless(more, good, one)
            && (Hopeless(more, good, two) <==> one !in good)
  {
    var more := SplitEdges(e, w, one, two);
    SplitExtends(e, w, one, two);
    forall p | IsPath(more, p) && |p| >= 2 && p[0] == one
      ensures p[|p| - 1] in good
    {
      assert p[1] in more[one] && p[1] in e;
      assert IsPath(more, p[1..]);
      PathStaysInside(e, more, p[1..]);
      assert IsPath(e, [w] + p[1..]);
    }
    if Hopeless(more, good, two) && one in good {
      var p :| IsPath(more, p) && |p| >= 2 && p[0] == two && p[|p| - 1] !in good;
      assert p[1] in more[two] && p[1] == one;
      assert IsPath(more, p[1..]);
      assert false;
    }
    if one !in good {
      HopelessAbove(more, good, two, one);
    }
  }

  lemma SplitKeepsParts(e0: Edges, e: Edges, good: iset<TaskId>, w: TaskId, one: TaskId, two: TaskId)
    requires PartsFollow(e0, e, good) && Closed(e)
    requires w in e && one !in e && two !in e && one != two && !Hopeless(e, good, w)
    ensures PartsFollow(e0, SplitEdges(e, w, one, two), good)
  {
    var more := SplitEdges(e, w, one, two);
    SplitExtends(e, w, one, two);
    PartsHope(e, good, w, one, two);
    forall x | x in more && x !in e0
      ensures PartFollows(e0, more, good, x)
    {
      if x in e {
        assert PartFollows(e0, e, good, x);
        HopelessStays(e, more, good, x);
        if Hopeless(e, good, x) {
          var y :| y in e && y !in e0 && e[x] == [y] && !Hopeless(e, good, y);
          HopelessStays(e, more, good, y);
          assert more[x] == [y];
        }
      } else if x == two {
        assert more[two] == [one];
      }
    }
  }

  // -------------------------------------------------------------- the end, exactly

  /** Where a run stands against the plan it started with. */
  ghost predicate Standing(e0: Edges, e: Edges, good: iset<TaskId>, over: set<TaskId>, replaced: set<TaskId>,
                           b: Board) {
    && Closed(e0) && Acyclic(e0) && Closed(e) && Acyclic(e)
    && Settling(e, good, replaced, b)
    && PartsFollow(e0, e, good)
    && forall t :: t in replaced ==> t in e0 && t in over && !Hopeless(e0, good, t)
  }

  lemma OneDown(e0: Edges, e: Edges, good: iset<TaskId>, over: set<TaskId>, replaced: set<TaskId>, b: Board,
                t: TaskId, d: TaskId)
    requires Standing(e0, e, good, over, replaced, b)
    requires t in e0 && d in e0[t] && t in b && !b[t].Terminal()
    requires Hopeless(e0, good, d) || (d !in good && d !in over)
    ensures d in b && !b[d].Terminal()
  {
    assert d in e0 && e[t] == e0[t];
    assert Unobstructed(replaced, b, d);
    HopelessStays(e0, e, good, d);
    assert b[d].Completed? ==> d !in replaced && b[d] == FinalStatus(e, good, d);
  }

  /** Down a chain to something that fails unsplit, everything is unfinished. */
  lemma {:induction false} UnfinishedDown(e0: Edges, e: Edges, good: iset<TaskId>, over: set<TaskId>,
                                          replaced: set<TaskId>, b: Board, p: seq<TaskId>, i: nat)
    requires Standing(e0, e, good, over, replaced, b)
    requires IsPath(e0, p) && Fails(e0, good, over, p[|p| - 1]) && i < |p|
    requires p[0] in b && !b[p[0]].Terminal()
    ensures p[i] in b && !b[p[i]].Terminal()
  {
    hide Standing;
    if i > 0 {
      UnfinishedDown(e0, e, good, over, replaced, b, p, i - 1);
      assert p[i - 1 + 1] in e0[p[i - 1]];
      if i < |p| - 1 {
        assert IsPath(e0, p[i..]);
        assert Hopeless(e0, good, p[i]);
      }
      OneDown(e0, e, good, over, replaced, b, p[i - 1], p[i]);
    }
  }

  /** With nothing alive, an unfinished part would be ready. */
  lemma PartIsReady(e0: Edges, e: Edges, good: iset<TaskId>, over: set<TaskId>, replaced: set<TaskId>, b: Board,
                    t: TaskId)
    requires Standing(e0, e, good, over, replaced, b) && Alive(e, good, b) == {}
    requires t in Unfinished(b) && t !in e0
    ensures IsReady(e, b, t)
  {
    assert t !in Alive(e, good, b);
    assert PartFollows(e0, e, good, t);
    var y :| y in e && y !in e0 && e[t] == [y] && !Hopeless(e, good, y);
    assert y in e[t] && y !in Alive(e, good, b);
    assert Unobstructed(replaced, b, y);
  }

  /** With nothing ready, whoever is unfinished is left waiting. */
  lemma UnfinishedAreLeft(e0: Edges, e: Edges, good: iset<TaskId>, over: set<TaskId>, replaced: set<TaskId>, b: Board)
    requires Standing(e0, e, good, over, replaced, b) && forall t :: !IsReady(e, b, t)
    ensures Unfinished(b) <= LeftBehind(e0, good, over)
  {
    if Alive(e, good, b) != {} {
      AliveMeansReady(e, good, replaced, b);
      assert false;
    }
    forall t | t in Unfinished(b)
      ensures t in LeftBehind(e0, good, over)
    {
      assert t !in Alive(e, good, b);
      if t !in e0 {
        PartIsReady(e0, e, good, over, replaced, b, t);
      }
      HopelessStays(e0, e, good, t);
      if FailsBehind(e0, good, over, t) {
        var p :| IsPath(e0, p) && |p| >= 2 && p[0] == t && Fails(e0, good, over, p[|p| - 1]);
        var f := p[|p| - 1];
        assert f !in Alive(e, good, b);
        HopelessStays(e0, e, good, f);
        UnfinishedDown(e0, e, good, over, replaced, b, p, |p| - 1);
        assert false;
      }
    }
  }
}
