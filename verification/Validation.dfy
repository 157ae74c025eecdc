/** What makes a plan acceptable, and Kahn's bookkeeping for finding out. */
module Validation {
  import opened Dag
  import opened Waves
  import opened Tasks

  datatype Verdict = Valid | UnknownDependency(task: TaskId, dependency: TaskId) | Cyclic

  ghost predicate RepeatFree(e: Edges) {
    forall t :: t in e ==> NoRepeats(e[t])
  }

  /** What a plan must be like for the orchestrator to accept it. */
  ghost predicate Sound(e: Edges) {
    Closed(e) && RepeatFree(e) && Acyclic(e)
  }

  /** The members of `done` that occur in `deps`, in the order of `done`. */
  function Drained(deps: seq<TaskId>, done: seq<TaskId>): seq<TaskId> {
    if done == [] then []
    else
      var last := |done| - 1;
      Drained(deps, done[..last]) + if done[last] in deps then [done[last]] else []
  }

  lemma {:induction false} DrainedMembers(deps: seq<TaskId>, done: seq<TaskId>)
    requires NoRepeats(done)
    ensures NoRepeats(Drained(deps, done))
    ensures forall d :: d in Drained(deps, done) <==> d in deps && d in done
  {
    if done != [] {
      var last := |done| - 1;
      DrainedMembers(deps, done[..last]);
      assert done == done[..last] + [done[last]];
    }
  }

  lemma {:induction false} DistinctCount<T(!new)>(s: seq<T>, u: set<T>)
    requires forall x :: x in u <==> x in s
    ensures |u| <= |s|
    ensures |u| == |s| <==> NoRepeats(s)
  {
    if s == [] {
      assert u == {};
    } else {
      var last := |s| - 1;
      assert s == s[..last] + [s[last]];
      if s[last] in s[..last] {
        DistinctCount(s[..last], u);
      } else {
        DistinctCount(s[..last], u - {s[last]});
      }
    }
  }

  /** Draining never takes more than a task waits for, and takes all of it exactly
      when nothing is listed twice and everything listed has been drained. */
  lemma DrainedBound(deps: seq<TaskId>, done: seq<TaskId>)
    requires NoRepeats(done)
    ensures |Drained(deps, done)| <= |deps|
    ensures |Drained(deps, done)| == |deps| <==> NoRepeats(deps) && forall d :: d in deps ==> d in done
  {
    var hit := Drained(deps, done);
    DrainedMembers(deps, done);
    var u := ToSet(deps);
    DistinctCount(deps, u);
    NoRepeatsFits(hit, u);
    if forall d :: d in deps ==> d in done {
      DistinctCount(hit, u);
    }
  }

  /** Kahn's bookkeeping: what is left to wait for, given what was drained and what is queued. */
  ghost predicate Draining(e: Edges, waiting: map<TaskId, nat>, done: seq<TaskId>, queue: seq<TaskId>) {
    && waiting.Keys == e.Keys
    && Topological(e, done + queue)
    && (forall t :: t in e ==> waiting[t] == |e[t]| - |Drained(e[t], done)|)
    && (forall t :: t in e ==> (waiting[t] == 0 <==> t in done + queue))
  }

  lemma DrainedOneMore(deps: seq<TaskId>, done: seq<TaskId>, id: TaskId)
    requires NoRepeats(done + [id])
    ensures |Drained(deps, done + [id])| == |Drained(deps, done)| + if id in deps then 1 else 0
    ensures |Drained(deps, done + [id])| <= |deps|
  {
    assert (done + [id])[..|done|] == done;
    DrainedBound(deps, done + [id]);
  }

  /** The first `i` tasks of `order` have heard that `id` is drained, the others have not. */
  ghost predicate Midway(e: Edges, waiting: map<TaskId, nat>, done: seq<TaskId>, id: TaskId,
                         queue: seq<TaskId>, order: seq<TaskId>, i: nat)
  {
    && i <= |order|
    && Lists(order, e.Keys)
    && waiting.Keys == e.Keys
    && Topological(e, done + [id] + queue)
    && (forall j :: 0 <= j < i ==> waiting[order[j]] == |e[order[j]]| - |Drained(e[order[j]], done + [id])|)
    && (forall j :: i <= j < |order| ==> waiting[order[j]] == |e[order[j]]| - |Drained(e[order[j]], done)|)
    && (forall t :: t in e ==> (waiting[t] == 0 <==> t in done + [id] + queue))
  }

  lemma DrainAtStart(e: Edges, waiting: map<TaskId, nat>, queue: seq<TaskId>)
    requires waiting.Keys == e.Keys && forall t :: t in e ==> waiting[t] == |e[t]|
    requires NoRepeats(queue) && forall t :: t in queue <==> t in waiting && waiting[t] == 0
    ensures Draining(e, waiting, [], queue)
  {
    assert [] + queue == queue;
  }

  lemma DrainStart(e: Edges, counts: map<TaskId, nat>, done: seq<TaskId>, id: TaskId,
                   rest: seq<TaskId>, order: seq<TaskId>)
    requires Lists(order, e.Keys) && Draining(e, counts, done, [id] + rest)
    ensures Midway(e, counts, done, id, rest, order, 0)
  {
    assert done + [id] + rest == done + ([id] + rest);
  }

  /** Telling the next task keeps the count exact, never takes it below zero, and queues the
      task at most once: exactly when its count reaches zero. */
  lemma DrainStep(e: Edges, waiting: map<TaskId, nat>, done: seq<TaskId>, id: TaskId,
                  queue: seq<TaskId>, order: seq<TaskId>, i: nat)
    requires i < |order| && Midway(e, waiting, done, id, queue, order, i)
    ensures order[i] in e && order[i] in waiting
    ensures id in e[order[i]] ==> waiting[order[i]] > 0 && order[i] !in queue
    ensures var t := order[i];
            var left := if id in e[t] && waiting[t] > 0 then waiting[t := waiting[t] - 1] else waiting;
            Midway(e, left, done, id, if id in e[t] && left[t] == 0 then queue + [t] else queue, order, i + 1)
  {
    hide Topological; hide Drained;
    var t := order[i];
    var s := done + [id] + queue;
    QueueIsApart(e, done, id, queue);
    DrainedOneMore(e[t], done, id);
    if id in e[t] && waiting[t] == 1 {
      DrainedBound(e[t], done + [id]);
      AppendTopological(e, s, t);
      assert s + [t] == done + [id] + (queue + [t]);
    }
  }

  lemma QueueIsApart(e: Edges, done: seq<TaskId>, id: TaskId, queue: seq<TaskId>)
    requires Topological(e, done + [id] + queue)
    ensures NoRepeats(done + [id])
  {
    var s := done + [id] + queue;
    assert forall k :: 0 <= k < |done + [id]| ==> (done + [id])[k] == s[k];
  }

  lemma DrainEnd(e: Edges, waiting: map<TaskId, nat>, done: seq<TaskId>, id: TaskId,
                 queue: seq<TaskId>, order: seq<TaskId>)
    requires Midway(e, waiting, done, id, queue, order, |order|)
    ensures Draining(e, waiting, done + [id], queue)
  {
    forall t | t in e
      ensures waiting[t] == |e[t]| - |Drained(e[t], done + [id])|
    {
      assert t in order;
    }
  }

  lemma DrainedTask(e: Edges, waiting: map<TaskId, nat>, done: seq<TaskId>, t: TaskId)
    requires Draining(e, waiting, done, []) && t in e
    ensures t in done <==> NoRepeats(e[t]) && forall d :: d in e[t] ==> d in done
  {
    assert done + [] == done;
    DrainedBound(e[t], done);
  }

  /** Everything drained: the drained order is a certificate that the plan is sound. */
  lemma DrainedEverything(e: Edges, waiting: map<TaskId, nat>, done: seq<TaskId>)
    requires Draining(e, waiting, done, []) && |done| == |e|
    ensures RepeatFree(e) && Acyclic(e)
  {
    assert done + [] == done;
    NoRepeatsFits(done, e.Keys);
    TopologicalIsAcyclic(e, done);
    forall t | t in e
      ensures NoRepeats(e[t])
    {
      DrainedTask(e, waiting, done, t);
    }
  }

  /** Something left: either it lists a dependency twice or it contains a cycle. */
  lemma DrainedIncomplete(e: Edges, waiting: map<TaskId, nat>, done: seq<TaskId>)
    requires Closed(e) && Draining(e, waiting, done, []) && |done| != |e|
    ensures !(RepeatFree(e) && Acyclic(e))
  {
    assert done + [] == done;
    var rest := set t | t in e && t !in done;
    if rest == {} {
      assert forall t :: t in e.Keys ==> t in done by {
        assert forall t :: t in e && t !in done ==> t in rest;
      }
      DistinctCount(done, e.Keys);
      assert false;
    }
    if RepeatFree(e) {
      forall t | t in rest
        ensures WaitsIn(e, rest, t)
      {
        DrainedTask(e, waiting, done, t);
        var d :| d in e[t] && d !in done;
        assert d in rest;
      }
      StuckSetHasCycle(e, rest);
    }
  }

  lemma DrainedFits(e: Edges, waiting: map<TaskId, nat>, done: seq<TaskId>, queue: seq<TaskId>)
    requires Draining(e, waiting, done, queue)
    ensures |done| <= |e|
  {
    NoRepeatsFits(done + queue, e.Keys);
  }

  lemma DrainedIffSound(e: Edges, waiting: map<TaskId, nat>, done: seq<TaskId>)
    requires Closed(e) && Draining(e, waiting, done, [])
    ensures |done| == |e| <==> Sound(e)
  {
    if |done| == |e| {
      DrainedEverything(e, waiting, done);
    } else {
      DrainedIncomplete(e, waiting, done);
    }
  }

  /** A dependency listed twice is counted twice and drained once: a plan without a cycle is
      refused as cyclic. */
  lemma RepeatedDependencyIsRefused(a: TaskId, b: TaskId)
    requires a != b
    ensures var e: Edges := map[a := [], b := [a, a]];
            Closed(e) && Acyclic(e) && !Sound(e)
  {
    var e: Edges := map[a := [], b := [a, a]];
    var order := [a, b];
    forall i, d | 0 <= i < |order| && d in e[order[i]]
      ensures Earlier(order, i, d)
    {
      assert order[0] == a;
    }
    assert Topological(e, order);
    TopologicalIsAcyclic(e, order);
    assert e[b][0] == e[b][1];
  }
}
