/** The plan graph: a mutable set of task rows with their insertion order. */
module TaskGraphs {
  import opened Dag
  import opened Waves
  import opened Tasks
  import opened Tokens
  import opened Frontiers
  import opened Cascades
  import opened Totals
  import opened Validation

  class TaskGraph {
    var tasks: Rows
    /** Insertion order, so equally ready tasks run as the planner wrote them. */
    var order: seq<TaskId>

    ghost predicate Valid()
      reads this
    {
      WellFormed(tasks, order)
    }

    constructor ()
      ensures Valid() && tasks == map[] && order == []
    {
      tasks, order := map[], [];
    }

    constructor Clone(other: TaskGraph)
      requires other.Valid()
      ensures Valid() && tasks == other.tasks && order == other.order
    {
      tasks, order := other.tasks, other.order;
    }

    /** Add a task; one with a known id replaces the row and keeps its place. */
    method Add(task: Task) returns (id: TaskId)
      requires Valid()
      modifies this
      ensures Valid() && id == task.id
      ensures tasks == old(tasks)[task.id := task]
      ensures order == if task.id in old(tasks) then old(order) else old(order) + [task.id]
    {
      id := task.id;
      if id !in tasks {
        order := order + [id];
      }
      tasks := tasks[id := task];
    }

    /** Overwrite the row of a known task. */
    method Put(task: Task)
      requires Valid() && task.id in tasks
      modifies this`tasks
      ensures Valid() && tasks == old(tasks)[task.id := task]
    {
      tasks := tasks[task.id := task];
    }

    function ReadyTasks(): (ready: seq<TaskId>)
      requires Valid()
      reads this
      ensures ready == Frontier(tasks, order)
    {
      Frontier(tasks, order)
    }

    predicate IsComplete(): (complete: bool)
      reads this
      ensures complete <==> Complete(BoardOf(tasks))
      ensures complete <==> forall t :: t in tasks ==>
                !(tasks[t].status.Pending? || tasks[t].status.Ready? || tasks[t].status.Running?)
    {
      assert forall t :: t in tasks ==> BoardOf(tasks)[t] == tasks[t].status;
      Complete(BoardOf(tasks))
    }

    /** Mark everything that transitively waits for `failed` as skipped, and name it. */
    method CascadeSkip(failed: TaskId) returns (skipped: seq<TaskId>)
      requires Valid()
      modifies this`tasks
      ensures Valid()
      ensures NoRepeats(skipped)
      ensures ToSet(skipped) == DoomedSet(EdgesOf(old(tasks)), BoardOf(old(tasks)), {failed})
      ensures tasks == SkipRows(old(tasks), DoomedSet(EdgesOf(old(tasks)), BoardOf(old(tasks)), {failed}))
    {
      ghost var rows := tasks;
      CascadeStarts(rows, failed);
      skipped := [];
      var frontier := {failed};
      hide Cascading;
      hide WaitingOn;
      hide AllDoomed;
      hide DoomedSet;
      hide SkipRows;
      var dependents := DependentsOf(frontier);
      while dependents != {}
        invariant tasks.Keys == rows.Keys
        invariant Cascading(rows, failed, tasks, frontier, skipped)
        invariant dependents == WaitingOn(tasks, frontier)
        decreases |rows| - |skipped|
      {
        CascadeReaches(rows, failed, tasks, frontier, skipped, dependents);
        CascadeFits(rows, failed, tasks, frontier, skipped, dependents);
        var left := dependents;
        ghost var before := |skipped|;
        while left != {}
          invariant tasks.Keys == rows.Keys
          invariant Cascading(rows, failed, tasks, frontier, skipped)
          invariant AllDoomed(rows, failed, left, skipped)
          invariant |skipped| + |left| == before + |dependents|
        {
          var id :| id in left;
          CascadeStep(rows, failed, tasks, frontier, skipped, left, id);
          left := left - {id};
          tasks := tasks[id := tasks[id].(status := Skipped)];
          frontier := frontier + {id};
          skipped := skipped + [id];
        }
        dependents := DependentsOf(frontier);
      }
      CascadeKeepsIds(rows, failed, tasks, frontier, skipped);
      CascadeIsExact(rows, failed, tasks, frontier, skipped);
    }

    /** The unfinished tasks with a dependency in `frontier`. */
    function DependentsOf(frontier: set<TaskId>): (r: set<TaskId>)
      reads this
      ensures r == WaitingOn(tasks, frontier)
    {
      set t | t in tasks && !tasks[t].status.Terminal()
              && exists d :: d in tasks[t].spec.dependencies && d in frontier
    }

    /** Tokens consumed across the whole plan, visiting the tasks in whatever order the map yields. */
    method TotalTokens() returns (total: TokenUsage)
      requires Valid()
      ensures total == PlanTotal(tasks, order)
    {
      total := NOTHING;
      var left := tasks.Keys;
      ghost var seen: seq<TaskId> := [];
      while left != {}
        invariant left <= tasks.Keys && Lists(seen, tasks.Keys - left)
        invariant forall i :: 0 <= i < |seen| ==> seen[i] in tasks
        invariant total == SumOver(TotalsOf(tasks), seen)
      {
        var id :| id in left;
        left := left - {id};
        total := total.Merge(TaskTotal(tasks[id]));
        assert (seen + [id])[..|seen|] == seen;
        seen := seen + [id];
      }
      assert tasks.Keys - left == tasks.Keys;
      SumOverIsOrderFree(TotalsOf(tasks), seen, order, tasks.Keys);
    }

    /** Whether every dependency is known; the first one that is not, in planner order. */
    method FindUnknown() returns (r: Verdict)
      requires Valid()
      ensures !r.Cyclic?
      ensures r.Valid? <==> Closed(EdgesOf(tasks))
      ensures r.UnknownDependency? ==>
                exists i :: 0 <= i < |order| && order[i] == r.task
                  && r.dependency in tasks[r.task].spec.dependencies && r.dependency !in tasks
                  && forall j, d :: 0 <= j < i && d in tasks[order[j]].spec.dependencies ==> d in tasks
    {
      for i := 0 to |order|
        invariant forall j, d :: 0 <= j < i && d in tasks[order[j]].spec.dependencies ==> d in tasks
      {
        var deps := tasks[order[i]].spec.dependencies;
        for k := 0 to |deps|
          invariant forall j :: 0 <= j < k ==> deps[j] in tasks
        {
          if deps[k] !in tasks {
            ghost var e := EdgesOf(tasks);
            assert order[i] in e && deps[k] in e[order[i]] && deps[k] !in e;
            return UnknownDependency(order[i], deps[k]);
          }
        }
      }
      return Verdict.Valid;
    }

    /** Take `id` off the counts of the tasks waiting for it, queueing those that wait no more. */
    method DrainOne(id: TaskId, counts: map<TaskId, nat>, rest: seq<TaskId>, ghost done: seq<TaskId>)
      returns (waiting: map<TaskId, nat>, queue: seq<TaskId>)
      requires Valid()
      requires Draining(EdgesOf(tasks), counts, done, [id] + rest)
      ensures Draining(EdgesOf(tasks), waiting, done + [id], queue)
    {
      ghost var e := EdgesOf(tasks);
      hide Draining;
      hide Midway;
      waiting, queue := counts, rest;
      DrainStart(e, counts, done, id, rest, order);
      for i := 0 to |order|
        invariant Midway(e, waiting, done, id, queue, order, i)
      {
        DrainStep(e, waiting, done, id, queue, order, i);
        var t := order[i];
        if id in tasks[t].spec.dependencies {
          waiting := waiting[t := waiting[t] - 1];
          if waiting[t] == 0 {
            queue := queue + [t];
          }
        }
      }
      DrainEnd(e, waiting, done, id, queue, order);
    }

    /** How many tasks can be drained, each after everything it waits for (Kahn). */
    method CountDrained() returns (visited: nat)
      requires Valid() && Closed(EdgesOf(tasks))
      ensures visited == |tasks| <==> Sound(EdgesOf(tasks))
    {
      ghost var e := EdgesOf(tasks);
      var waiting: map<TaskId, nat> := map t | t in tasks :: |tasks[t].spec.dependencies|;
      var queue := StartingPoints(waiting);
      ghost var done: seq<TaskId> := [];
      visited := 0;
      DrainAtStart(e, waiting, queue);

      while queue != []
        invariant Draining(e, waiting, done, queue)
        invariant visited == |done| <= |e|
        decreases |e| - |done|
      {
        ghost var head := queue[0];
        assert queue == [head] + queue[1..];
        waiting, queue := DrainOne(queue[0], waiting, queue[1..], done);
        done := done + [head];
        visited := visited + 1;
        DrainedFits(e, waiting, done, queue);
      }
      DrainedIffSound(e, waiting, done);
      assert e.Keys == tasks.Keys;
    }

    /** Reject dangling dependencies and cycles. */
    method Validate() returns (r: Verdict)
      requires Valid()
      ensures r.UnknownDependency? <==> !Closed(EdgesOf(tasks))
      ensures r.UnknownDependency? ==>
                r.task in tasks && r.dependency in tasks[r.task].spec.dependencies && r.dependency !in tasks
      ensures r.Valid? <==> Sound(EdgesOf(tasks))
    {
      r := FindUnknown();
      if r.Valid? {
        var visited := CountDrained();
        r := if visited != |tasks| then Cyclic else Verdict.Valid;
      }
    }
  }

  /** The tasks that wait for nothing, in some order. */
  method StartingPoints(waiting: map<TaskId, nat>) returns (queue: seq<TaskId>)
    ensures NoRepeats(queue)
    ensures forall t :: t in queue <==> t in waiting && waiting[t] == 0
  {
    queue := [];
    var left := waiting.Keys;
    while left != {}
      invariant left <= waiting.Keys
      invariant NoRepeats(queue)
      invariant forall t :: t in queue <==> t in waiting && t !in left && waiting[t] == 0
    {
      var t :| t in left;
      left := left - {t};
      if waiting[t] == 0 {
        queue := queue + [t];
      }
    }
  }
}
