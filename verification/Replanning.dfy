/** Re-planning after a context overflow: the task that overflowed is taken out of the plan
    and two smaller ones take its place. */
module Replanning {
  import opened Dag
  import opened Waves
  import opened Tasks
  import opened Validation
  import opened TaskGraphs

  const PART_ONE := " (part 1 of 2: narrow the scope to the smallest change)"
  const PART_TWO := " (part 2 of 2: complete the remaining work)"

  function Half(n: Option<nat>): Option<nat> {
    if n.Some? then Some(n.value / 2) else None
  }

  /** A smaller task carved out of `base`, on behalf of `parent`. */
  function Part(id: TaskId, parent: TaskId, base: TaskSpec, suffix: string, dependencies: seq<TaskId>): Task {
    NewTask(id, base.(description := base.description + suffix,
                      estimatedTokens := Half(base.estimatedTokens),
                      dependencies := dependencies)).(parent := Some(parent))
  }

  /** The plan after splitting `failed` into `one` and, chained behind it, `two`. */
  function SplitRows(rows: Rows, failed: Task, one: TaskId, two: TaskId): Rows
    requires failed.id in rows
  {
    rows[failed.id := rows[failed.id].(status := Skipped)]
        [one := Part(one, failed.id, failed.spec, PART_ONE, failed.spec.dependencies)]
        [two := Part(two, failed.id, failed.spec, PART_TWO, [one])]
  }

  /** Serials from `next` on are unused. */
  ghost predicate Fresh(rows: Rows, next: nat) {
    forall id :: id in rows ==> id.serial < next
  }

  function SplitEdges(e: Edges, t: TaskId, one: TaskId, two: TaskId): Edges
    requires t in e
  {
    e[one := e[t]][two := [one]]
  }

  lemma SplitRowsEdges(rows: Rows, failed: Task, one: TaskId, two: TaskId)
    requires failed.id in rows && rows[failed.id].spec == failed.spec
    requires one !in rows && two !in rows && one != two
    ensures EdgesOf(SplitRows(rows, failed, one, two)) == SplitEdges(EdgesOf(rows), failed.id, one, two)
    ensures BoardOf(SplitRows(rows, failed, one, two))
         == BoardOf(rows)[failed.id := Skipped][one := Pending][two := Pending]
  {
  }

  /** Splitting a task of a sound plan gives a sound plan. */
  lemma SplitKeepsSound(e: Edges, t: TaskId, one: TaskId, two: TaskId)
    requires Sound(e) && t in e && one !in e && two !in e && one != two
    ensures Sound(SplitEdges(e, t, one, two))
  {
    var e' := SplitEdges(e, t, one, two);
    var s := ExtendTopological(e, []);
    assert Topological(e', s);
    assert forall d :: d in e'[one] ==> d in s by {
      assert forall d :: d in e[t] ==> d in e;
    }
    assert one !in s && two !in s;
    AppendTopological(e', s, one);
    AppendTopological(e', s + [one], two);
    TopologicalIsAcyclic(e', s + [one] + [two]);
    forall x | x in e'
      ensures NoRepeats(e'[x])
    {
      assert x != two ==> e'[x] == e[if x == one then t else x];
    }
    forall x, d | x in e' && d in e'[x]
      ensures d in e'
    {
      if x != two {
        assert d in e[if x == one then t else x];
      }
    }
  }

  /** A part is its task over again with a narrower description and half the estimate, pending, on the
      task's behalf; the first waits for what the task waited for, the second for the first. */
  predicate IsPartOf(part: Task, failed: Task) {
    && part.parent == Some(failed.id) && part.status == Pending && part.target == None
    && part.attempts == [] && part.artifacts == []
    && part.spec.taskType == failed.spec.taskType && part.spec.risk == failed.spec.risk
    && part.spec.priority == failed.spec.priority
    && failed.spec.description < part.spec.description
    && match failed.spec.estimatedTokens
       case None => part.spec.estimatedTokens == None
       case Some(n) => part.spec.estimatedTokens.Some?
                       && 2 * part.spec.estimatedTokens.value <= n <= 2 * part.spec.estimatedTokens.value + 1
  }

  lemma SplitMakesParts(rows: Rows, failed: Task, one: TaskId, two: TaskId)
    requires failed.id in rows && one !in rows && two !in rows && one != two
    ensures var after := SplitRows(rows, failed, one, two);
            && after.Keys == rows.Keys + {one, two}
            && after[one].id == one && IsPartOf(after[one], failed)
            && after[one].spec.dependencies == failed.spec.dependencies
            && after[two].id == two && IsPartOf(after[two], failed) && after[two].spec.dependencies == [one]
            && after[one].spec.description != after[two].spec.description
            && after[failed.id] == rows[failed.id].(status := Skipped)
            && forall t :: t in rows && t != failed.id ==> after[t] == rows[t]
  {
    assert |PART_ONE| != |PART_TWO|;
  }

  datatype Replan = Refused | Revised | Rejected(why: Verdict)

  lemma SplitOfSoundIsSound(rows: Rows, failed: Task, one: TaskId, two: TaskId)
    requires failed.id in rows && rows[failed.id].spec == failed.spec
    requires one !in rows && two !in rows && one != two
    ensures Sound(EdgesOf(rows)) ==> Sound(EdgesOf(SplitRows(rows, failed, one, two)))
  {
    SplitRowsEdges(rows, failed, one, two);
    if Sound(EdgesOf(rows)) {
      SplitKeepsSound(EdgesOf(rows), failed.id, one, two);
    }
  }

  /** A copy of `graph` in which `failed` has made way for two parts. */
  method Carve(graph: TaskGraph, failed: Task, next: nat) returns (revised: TaskGraph)
    requires graph.Valid() && Fresh(graph.tasks, next) && failed.id in graph.tasks
    ensures fresh(revised) && revised.Valid()
    ensures revised.tasks == SplitRows(graph.tasks, failed, TaskId(next), TaskId(next + 1))
    ensures revised.order == graph.order + [TaskId(next)] + [TaskId(next + 1)]
  {
    revised := new TaskGraph.Clone(graph);
    revised.Put(revised.tasks[failed.id].(status := Skipped));
    var one := revised.Add(Part(TaskId(next), failed.id, failed.spec, PART_ONE, failed.spec.dependencies));
    var two := revised.Add(Part(TaskId(next + 1), failed.id, failed.spec, PART_TWO, [one]));
  }

  /** Split `failed`, if its reason was an oversized context and it is not itself a part.
      The revised plan is a copy; `graph` stays as it was. */
  method Split(graph: TaskGraph, failed: Task, oversized: bool, next: nat)
    returns (outcome: Replan, revised: TaskGraph)
    requires graph.Valid() && Fresh(graph.tasks, next)
    requires failed.id in graph.tasks ==> graph.tasks[failed.id].spec == failed.spec
    ensures revised.Valid() && (revised == graph || fresh(revised))
    ensures outcome.Refused? <==> !(oversized && failed.parent.None? && failed.id in graph.tasks)
    ensures outcome.Refused? ==> revised == graph
    ensures !outcome.Refused? ==>
              && revised.tasks == SplitRows(graph.tasks, failed, TaskId(next), TaskId(next + 1))
              && revised.order == graph.order + [TaskId(next)] + [TaskId(next + 1)]
    ensures outcome.Rejected? ==> !Sound(EdgesOf(graph.tasks))
    ensures outcome.Revised? ==> Sound(EdgesOf(revised.tasks))
  {
    if !oversized || failed.parent.Some? || failed.id !in graph.tasks {
      return Refused, graph;
    }
    revised := Carve(graph, failed, next);
    var verdict := revised.Validate();
    SplitOfSoundIsSound(graph.tasks, failed, TaskId(next), TaskId(next + 1));
    outcome := if verdict.Valid? then Revised else Rejected(verdict);
  }
}
