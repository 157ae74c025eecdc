/** The pass bound, one task at a time: how many passes a plan needs, and a plan for which the
    bound is too small. */
module Bounds {
  import opened Dag
  import opened Tokens
  import opened Waves
  import opened Tasks
  import opened Ledgers
  import opened Attempts
  import opened Validation
  import opened TaskGraphs
  import opened Replanning
  import opened Frontiers
  import opened Runs
  import opened Admission
  import opened Endings
  import opened Journeys
  import opened Executor

  lemma {:induction false} AllPartsGood(good: iset<TaskId>, next: nat, k: nat)
    requires forall j :: 0 <= j < k ==> TaskId(next + 2 * j) in good
    ensures GoodParts(good, next, k) == k
    decreases k
  {
    if k > 0 {
      assert TaskId(next + 2 * 0) in good;
      forall j | 0 <= j < k - 1
        ensures TaskId(next + 2 + 2 * j) in good
      {
        assert TaskId(next + 2 * (j + 1)) in good;
      }
      AllPartsGood(good, next + 2, k - 1);
    }
  }

  ghost predicate NobodyWaits(e: Edges) {
    forall t :: t in e ==> e[t] == []
  }

  lemma PathsWait(e: Edges, p: seq<TaskId>)
    requires IsPath(e, p) && |p| >= 2
    ensures !NobodyWaits(e)
  {
    assert p[0 + 1] in e[p[0]];
  }

  lemma NobodyIsHopeless(e: Edges, good: iset<TaskId>, t: TaskId)
    requires NobodyWaits(e)
    ensures !Hopeless(e, good, t)
  {
    if p :| IsPath(e, p) && |p| >= 2 && p[0] == t && p[|p| - 1] !in good {
      PathsWait(e, p);
      assert false;
    }
  }

  /** Tasks that wait for nothing and are all split, with first parts that succeed, need three
      passes each. */
  lemma IndependentSplitsNeedThrice(env: Env, cap: nat, rows: Rows, next: nat)
    requires forall t :: t in rows ==>
               && rows[t].spec.dependencies == [] && rows[t].status.Pending? && rows[t].parent.None?
               && Overflows(env, cap, t)
    requires forall k :: 0 <= k < |rows| ==> TaskId(next + 2 * k) in Good(env, cap)
    ensures ToRun(env, cap, rows, rows, next) == 3 * |rows|
  {
    var e, b, good, over := EdgesOf(rows), BoardOf(rows), Good(env, cap), Over(env, cap, rows);
    assert over == rows.Keys;
    assert NobodyWaits(e);
    forall t | t in rows
      ensures !Hopeless(e, good, t)
    {
      NobodyIsHopeless(e, good, t);
    }
    hide Good; hide Over; hide Overflows; hide Hopeless; hide NobodyWaits;
    assert Alive(e, good, b) == rows.Keys;
    assert ToSplit(e, good, over, b) == rows.Keys;
    assert |rows.Keys| == |rows|;
    AllPartsGood(good, next, |rows|);
  }

  /** A world in which the tasks with small serials are too large for any context, and all others succeed. */
  function TooLarge(limit: nat): Env {
    Env((id: TaskId, n: nat, abandoned: seq<Target>) => Some(Target("agent", None)),
        (id: TaskId, n: nat, abandoned: seq<Target>) => false,
        (id: TaskId, n: nat, target: Target) => Delivered(id.serial >= limit, NOTHING, []),
        (id: TaskId, n: nat, onTarget: nat, elsewhere: bool) => AskPlanner(true),
        (id: TaskId, outputs: seq<string>) => [],
        (id: TaskId) => InPlace)
  }

  lemma TooLargeFacts(limit: nat, cap: nat, id: TaskId)
    requires cap >= 1
    ensures id.serial < limit ==> Overflows(TooLarge(limit), cap, id)
    ensures id.serial >= limit ==> id in Good(TooLarge(limit), cap)
  {
    CourseUnfolds(TooLarge(limit), cap, id, 0, [], 0, None);
  }

  lemma NobodyWaitsIsSound(e: Edges)
    requires NobodyWaits(e)
    ensures Sound(e)
  {
    if p :| IsPath(e, p) && |p| >= 2 {
      PathsWait(e, p);
      assert false;
    }
  }

  ghost predicate AreAlike(rows: Rows, n: nat, spec: TaskSpec) {
    && |rows| == n && (forall k :: 0 <= k < n ==> TaskId(k) in rows)
    && forall t :: t in rows ==> rows[t] == NewTask(t, spec) && t.serial < n
  }

  lemma OneMoreAlike(rows: Rows, i: nat, spec: TaskSpec)
    requires AreAlike(rows, i, spec)
    ensures AreAlike(rows[TaskId(i) := NewTask(TaskId(i), spec)], i + 1, spec)
  {
    OneMoreRow(rows, TaskId(i), NewTask(TaskId(i), spec));
  }

  /** The plan of `n` tasks that are alike. */
  method Alike(n: nat, spec: TaskSpec) returns (graph: TaskGraph)
    ensures fresh(graph) && graph.Valid() && |graph.tasks| == n
    ensures forall t :: t in graph.tasks ==> graph.tasks[t] == NewTask(t, spec) && t.serial < n
    ensures forall k :: 0 <= k < n ==> TaskId(k) in graph.tasks
  {
    graph := new TaskGraph();
    hide AreAlike;
    NoneAlike(spec);
    for i := 0 to n
      invariant fresh(graph) && graph.Valid() && AreAlike(graph.tasks, i, spec)
    {
      OneMoreAlike(graph.tasks, i, spec);
      var id := graph.Add(NewTask(TaskId(i), spec));
    }
    AlikeMeans(graph.tasks, n, spec);
  }

  lemma NoneAlike(spec: TaskSpec)
    ensures AreAlike(map[], 0, spec)
  {
  }

  lemma AlikeMeans(rows: Rows, n: nat, spec: TaskSpec)
    requires AreAlike(rows, n, spec)
    ensures |rows| == n && forall t :: t in rows ==> rows[t] == NewTask(t, spec) && t.serial < n
    ensures forall k :: 0 <= k < n ==> TaskId(k) in rows
  {
  }

  lemma OneMoreRow(rows: Rows, id: TaskId, row: Task)
    requires id !in rows
    ensures |rows[id := row]| == |rows| + 1
  {
    assert rows[id := row].Keys == rows.Keys + {id};
    assert |rows.Keys| == |rows| && |rows[id := row].Keys| == |rows[id := row]|;
  }

  /** Tasks that are all split, one at a time: `n` of them need 3n passes and the bound allows
      2n + 4, so from five tasks on the run ends while a task is ready. */
  method SplitsMeetTheBound(n: nat, maxRetries: nat, spec: TaskSpec) returns (graph: TaskGraph, passes: nat)
    requires spec.dependencies == []
    ensures graph.Valid() && passes == Min(3 * n, 2 * n + 4)
    ensures n >= 5 <==> exists t :: IsReady(EdgesOf(graph.tasks), BoardOf(graph.tasks), t)
  {
    hide *;
    graph := Alike(n, spec);
    var env := TooLarge(n);
    var ledger := new OwnershipLedger();
    var orchestrator := new Orchestrator(env, maxRetries, 1, ledger, n);
    ghost var needed := ToRun(env, orchestrator.cap, graph.tasks, graph.tasks, n);
    AlikeNeedThrice(orchestrator.cap, graph.tasks, n, spec);
    NoClaimsUnhindered(env);
    ghost var ran, replaced, honoured;
    passes, ran, replaced, honoured := orchestrator.ExecuteGraph(graph);
    assert passes == Min(needed, 2 * n + 4) && (NothingReady(graph.tasks) <==> needed <= 2 * n + 4);
    Idle(graph.tasks);
  }

  lemma AlikeNeedThrice(cap: nat, rows: Rows, n: nat, spec: TaskSpec)
    requires cap >= 1 && spec.dependencies == [] && |rows| == n
    requires forall t :: t in rows ==> rows[t] == NewTask(t, spec) && t.serial < n
    ensures NewPlan(rows, n)
    ensures ToRun(TooLarge(n), cap, rows, rows, n) == 3 * n
  {
    AlikeIsNew(rows, n, spec);
    AlikeSplit(cap, rows, n, spec);
    hide *;
    IndependentSplitsNeedThrice(TooLarge(n), cap, rows, n);
  }

  lemma AlikeIsNew(rows: Rows, n: nat, spec: TaskSpec)
    requires spec.dependencies == []
    requires forall t :: t in rows ==> rows[t] == NewTask(t, spec) && t.serial < n
    ensures NewPlan(rows, n)
  {
    assert NobodyWaits(EdgesOf(rows));
    NobodyWaitsIsSound(EdgesOf(rows));
    hide NobodyWaits; hide Sound;
  }

  lemma AlikeSplit(cap: nat, rows: Rows, n: nat, spec: TaskSpec)
    requires cap >= 1 && spec.dependencies == []
    requires forall t :: t in rows ==> rows[t] == NewTask(t, spec) && t.serial < n
    ensures forall t :: t in rows ==>
              && rows[t].spec.dependencies == [] && rows[t].status.Pending? && rows[t].parent.None?
              && Overflows(TooLarge(n), cap, t)
    ensures forall k :: 0 <= k < |rows| ==> TaskId(n + 2 * k) in Good(TooLarge(n), cap)
  {
    hide Overflows; hide Good; hide TooLarge;
    forall t | t in rows
      ensures Overflows(TooLarge(n), cap, t)
    {
      TooLargeFacts(n, cap, t);
    }
    forall k | 0 <= k < |rows|
      ensures TaskId(n + 2 * k) in Good(TooLarge(n), cap)
    {
      TooLargeFacts(n, cap, TaskId(n + 2 * k));
    }
  }

  lemma Idle(rows: Rows)
    ensures NothingReady(rows) <==> !exists t :: IsReady(EdgesOf(rows), BoardOf(rows), t)
  {
  }

  // ------------------------------------------------------------- a foreign claim

  /** Somebody else holds the whole workspace, and every task of a plan writes something: each pass
      admits nothing, up to the bound, and the run ends with the plan as it was. */
  method ForeignClaimStopsAll(env: Env, maxRetries: nat, parallelism: nat, n: nat, spec: TaskSpec)
    returns (graph: TaskGraph, passes: nat)
    requires parallelism >= 1 && n >= 1 && spec.dependencies == [] && !spec.risk.ReadOnly?
    requires forall id, outputs :: env.writes(id, outputs) != []
    ensures passes == 2 * n + 4 && |graph.tasks| == n
    ensures forall t :: t in graph.tasks ==> graph.tasks[t] == NewTask(t, spec)
  {
    hide *;
    graph := Alike(n, spec);
    var ledger := new OwnershipLedger();
    NothingHeld(TaskId(n), []);
    var conflict := ledger.Claim(TaskId(n), [[]]);
    RootIsHeld(TaskId(n));
    var orchestrator := new Orchestrator(env, maxRetries, parallelism, ledger, n);
    AlikeIsNew(graph.tasks, n, spec);
    RootClaimBlocks(env, graph.tasks, n, spec, Shortlist(graph.tasks, graph.order, parallelism));
    ValidIsWellFormed(graph);
    AlikeAreReady(graph.tasks, graph.order, spec);
    ghost var ran, replaced, honoured;
    passes, ran, replaced, honoured := orchestrator.ExecuteGraph(graph);
  }

  lemma NothingHeld(task: TaskId, path: Path)
    ensures !HeldByAnother(map[], task, path)
  {
  }

  lemma RootIsHeld(task: TaskId)
    ensures Granted(map[], task, [[]]) == map[[] := task]
  {
  }

  lemma RootClaimBlocks(env: Env, rows: Rows, n: nat, spec: TaskSpec, ready: seq<TaskId>)
    requires !spec.risk.ReadOnly? && forall id, outputs :: env.writes(id, outputs) != []
    requires forall t :: t in rows ==> rows[t] == NewTask(t, spec) && t.serial < n
    ensures !SomeCanGo(env, rows, map[[] := TaskId(n)], ready)
  {
    var claims: Claims := map[[] := TaskId(n)];
    hide OutputsOf;
    forall t | t in rows
      ensures !CanGo(env, rows, claims, t)
    {
      var p := WritesOf(env, rows, t)[0];
      assert p in WritesOf(env, rows, t);
      assert [] in claims && claims[[]] != t && Overlaps(p, []);
    }
  }

  lemma AlikeAreReady(rows: Rows, order: seq<TaskId>, spec: TaskSpec)
    requires WellFormed(rows, order) && spec.dependencies == [] && |rows| >= 1
    requires forall t :: t in rows ==> rows[t] == NewTask(t, spec)
    ensures Frontier(rows, order) != []
  {
    FrontierIsExact(rows, order);
    assert |rows.Keys| == |rows|;
    var t :| t in rows.Keys;
    hide Frontier; hide Served;
    assert IsReady(EdgesOf(rows), BoardOf(rows), t);
  }

  // ---------------------------------------------------------- what a split leaves behind

  /** A task that is split and one that waits for it: at any parallelism the run ends with nothing
      ready and the second task unfinished. */
  method DependentStays(maxRetries: nat, parallelism: nat, first: TaskSpec, second: TaskSpec)
    returns (graph: TaskGraph, passes: nat)
    requires parallelism >= 1 && first.dependencies == [] && second.dependencies == [TaskId(0)]
    ensures graph.Valid() && NothingReady(graph.tasks)
    ensures TaskId(1) in graph.tasks && !graph.tasks[TaskId(1)].status.Terminal()
  {
    hide *;
    graph := Chain(first, second);
    var env := TooLarge(1);
    var ledger := new OwnershipLedger();
    var orchestrator := new Orchestrator(env, maxRetries, parallelism, ledger, 2);
    ghost var cap, rows := orchestrator.cap, graph.tasks;
    ChainIsNew(rows, first, second);
    ChainIsLeft(cap, rows, first, second);
    NoClaimsUnhindered(env);
    ghost var ran, replaced, honoured;
    passes, ran, replaced, honoured := orchestrator.ExecuteGraph(graph);
    InPlaceIsDecided(cap, rows, parallelism);
    LeftIsUnfinished(graph.tasks, LeftBehind(EdgesOf(rows), Good(env, cap), Over(env, cap, rows)), TaskId(1));
  }

  ghost predicate IsChain(rows: Rows, first: TaskSpec, second: TaskSpec) {
    rows == map[TaskId(0) := NewTask(TaskId(0), first), TaskId(1) := NewTask(TaskId(1), second)]
  }

  method Chain(first: TaskSpec, second: TaskSpec) returns (graph: TaskGraph)
    ensures fresh(graph) && graph.Valid() && IsChain(graph.tasks, first, second) && |graph.tasks| == 2
  {
    graph := new TaskGraph();
    var one := graph.Add(NewTask(TaskId(0), first));
    OneMoreRow(map[], TaskId(0), NewTask(TaskId(0), first));
    OneMoreRow(graph.tasks, TaskId(1), NewTask(TaskId(1), second));
    var two := graph.Add(NewTask(TaskId(1), second));
  }

  lemma ChainEdges(rows: Rows, first: TaskSpec, second: TaskSpec)
    requires IsChain(rows, first, second) && first.dependencies == [] && second.dependencies == [TaskId(0)]
    ensures EdgesOf(rows) == map[TaskId(0) := [], TaskId(1) := [TaskId(0)]]
  {
  }

  lemma ChainIsSound(e: Edges, d: TaskId, t: TaskId)
    requires d != t && e == map[d := [], t := [d]]
    ensures Sound(e)
  {
    var order := [d, t];
    assert order[0] == d;
    assert Earlier(order, 1, d);
    TopologicalIsAcyclic(e, order);
    hide Acyclic; hide Topological;
  }

  lemma ChainIsNew(rows: Rows, first: TaskSpec, second: TaskSpec)
    requires IsChain(rows, first, second) && first.dependencies == [] && second.dependencies == [TaskId(0)]
    ensures NewPlan(rows, 2)
  {
    ChainEdges(rows, first, second);
    ChainIsSound(EdgesOf(rows), TaskId(0), TaskId(1));
    hide Sound; hide EdgesOf;
  }

  lemma StepsOn(e: Edges, p: seq<TaskId>, i: nat)
    requires IsPath(e, p) && i + 1 < |p|
    ensures e[p[i]] != [] && p[i + 1] in e[p[i]]
  {
    assert p[i + 1] in e[p[i]];
  }

  lemma ChainIsLeft(cap: nat, rows: Rows, first: TaskSpec, second: TaskSpec)
    requires cap >= 1 && IsChain(rows, first, second) && first.dependencies == [] && second.dependencies == [TaskId(0)]
    ensures TaskId(1) in LeftBehind(EdgesOf(rows), Good(TooLarge(1), cap), Over(TooLarge(1), cap, rows))
  {
    var e, good, over := EdgesOf(rows), Good(TooLarge(1), cap), Over(TooLarge(1), cap, rows);
    var d, t := TaskId(0), TaskId(1);
    TooLargeFacts(1, cap, d);
    TooLargeIsBad(1, cap, d);
    assert d in over by {
      hide Overflows; hide TooLarge;
    }
    hide Good; hide Over; hide TooLarge; hide Overflows;
    ChainEdges(rows, first, second);
    forall p | IsPath(e, p) && |p| >= 2 && p[0] == t
      ensures p[|p| - 1] == d
    {
      StepsOn(e, p, 0);
      if |p| > 2 {
        StepsOn(e, p, 1);
        assert false;
      }
    }
    DependentIsLeft(e, good, over, t, d);
  }

  lemma TooLargeIsBad(limit: nat, cap: nat, id: TaskId)
    requires cap >= 1 && id.serial < limit
    ensures id !in Good(TooLarge(limit), cap)
  {
    CourseUnfolds(TooLarge(limit), cap, id, 0, [], 0, None);
  }

  lemma InPlaceIsDecided(cap: nat, rows: Rows, parallelism: nat)
    ensures Decided(TooLarge(1), cap, rows, parallelism)
  {
    hide Over;
  }

  lemma LeftIsUnfinished(rows: Rows, left: set<TaskId>, t: TaskId)
    requires Unfinished(BoardOf(rows)) == left && t in left
    ensures t in rows && !rows[t].status.Terminal()
  {
  }

  /** Two tasks that may run together, the first of which is split: one pass finishes both, the first
      as skipped, and the plan has no more tasks than before. */
  method CompanyLosesTheParts(maxRetries: nat, parallelism: nat, spec: TaskSpec)
    returns (graph: TaskGraph, ghost wave: seq<TaskId>)
    requires parallelism >= 2 && spec.dependencies == []
    ensures graph.Valid() && graph.tasks.Keys == {TaskId(0), TaskId(1)} && Complete(BoardOf(graph.tasks))
    ensures graph.tasks[TaskId(0)].status.Skipped?
  {
    hide *;
    graph := Alike(2, spec);
    var env := TooLarge(1);
    var ledger := new OwnershipLedger();
    var orchestrator := new Orchestrator(env, maxRetries, parallelism, ledger, 2);
    ghost var cap, rows, order := orchestrator.cap, graph.tasks, graph.order;
    AlikeIsNew(rows, 2, spec);
    ValidIsWellFormed(graph);
    PairIsFree(rows, order, spec, parallelism);
    ghost var decided := Decided(env, cap, rows, parallelism);
    SessionBegins(env, cap, rows, order, 2, [], []);
    NewPlanLives(env, cap, rows, 2, decided);
    ghost var replaced, honoured;
    var ran;
    ran, wave, replaced, honoured :=
      orchestrator.RunPass(graph, Since(0, 0), rows.Keys, {}, {}, rows, [], decided);
    PairIsOver(cap, rows, graph.tasks, spec, replaced, wave, decided);
  }

  lemma PairIsFree(rows: Rows, order: seq<TaskId>, spec: TaskSpec, limit: nat)
    requires WellFormed(rows, order) && spec.dependencies == [] && limit >= 2
    requires |rows| == 2 && TaskId(0) in rows && TaskId(1) in rows
    requires forall t :: t in rows ==> rows[t] == NewTask(t, spec)
    ensures forall wave :: FreeAdmitted(TooLarge(1), rows, Shortlist(rows, order, limit), wave) ==>
              TaskId(0) in wave && TaskId(1) in wave
  {
    FrontierIsExact(rows, order);
    hide Frontier; hide Served; hide OutputsOf; hide Lists;
    var f := Frontier(rows, order);
    assert IsReady(EdgesOf(rows), BoardOf(rows), TaskId(0)) && IsReady(EdgesOf(rows), BoardOf(rows), TaskId(1));
    assert |f| <= 2 by {
      assert forall i :: 0 <= i < |f| ==> f[i] in f;
      NoRepeatsFits(f, rows.Keys);
      assert |rows.Keys| == |rows|;
    }
    assert WritesNothing(TooLarge(1), rows, TaskId(0)) && WritesNothing(TooLarge(1), rows, TaskId(1));
  }

  lemma PairIsOver(cap: nat, rows: Rows, after: Rows, spec: TaskSpec, replaced: set<TaskId>, wave: seq<TaskId>,
                   decided: bool)
    requires cap >= 1 && |rows| == 2 && TaskId(0) in rows && TaskId(1) in rows
    requires forall t :: t in rows ==> rows[t] == NewTask(t, spec)
    requires TaskId(0) in wave && TaskId(1) in wave
    requires Lived(TooLarge(1), cap, rows, after, replaced, [] + wave, decided)
    requires |wave| > 1 ==> PartsLost(TooLarge(1), cap, rows, after, wave)
    ensures after.Keys == {TaskId(0), TaskId(1)} && Complete(BoardOf(after)) && after[TaskId(0)].status.Skipped?
  {
    hide *;
    TooLargeFacts(1, cap, TaskId(0));
    FirstIsLost(cap);
    TwoInWave(wave);
    PartsLostMeans(TooLarge(1), cap, rows, after, wave, TaskId(0));
    PairKeys(rows);
    SameRows(after, rows);
    NewHasNoParent(TaskId(0), spec);
    LivedIsFinished(TooLarge(1), cap, rows, after, replaced, [] + wave, decided);
    assert [] + wave == wave;
    PairComplete(after, wave);
  }

  lemma FirstIsLost(cap: nat)
    requires Overflows(TooLarge(1), cap, TaskId(0))
    ensures IsLost(TooLarge(1), cap, None, TaskId(0))
  {
    hide Overflows;
  }

  lemma TwoInWave(wave: seq<TaskId>)
    requires TaskId(0) in wave && TaskId(1) in wave
    ensures |wave| > 1
  {
  }

  lemma PartsLostMeans(env: Env, cap: nat, rows: Rows, after: Rows, wave: seq<TaskId>, t: TaskId)
    requires PartsLost(env, cap, rows, after, wave) && t in wave && t in rows
    ensures EdgesOf(after) == EdgesOf(rows)
    ensures IsLost(env, cap, rows[t].parent, t) ==> t in after && after[t].status.Skipped?
  {
    hide IsLost; hide EdgesOf;
  }

  lemma NewHasNoParent(t: TaskId, spec: TaskSpec)
    ensures NewTask(t, spec).parent == None
  {
  }

  lemma LivedIsFinished(env: Env, cap: nat, rows0: Rows, rows: Rows, replaced: set<TaskId>, done: seq<TaskId>,
                        decided: bool)
    requires Lived(env, cap, rows0, rows, replaced, done, decided)
    ensures forall t :: t in done ==> t in BoardOf(rows) && BoardOf(rows)[t].Terminal()
  {
    hide BoardOf; hide EdgesOf; hide Topological; hide Good; hide Over; hide PartsFollow; hide LeftBehind;
    hide Hopeless;
    hide ParentsKept;
  }

  lemma PairComplete(rows: Rows, wave: seq<TaskId>)
    requires rows.Keys == {TaskId(0), TaskId(1)} && TaskId(0) in wave && TaskId(1) in wave
    requires forall t :: t in wave ==> t in BoardOf(rows) && BoardOf(rows)[t].Terminal()
    ensures Complete(BoardOf(rows))
  {
  }

  lemma PairKeys(rows: Rows)
    requires |rows| == 2 && TaskId(0) in rows && TaskId(1) in rows
    ensures rows.Keys == {TaskId(0), TaskId(1)}
  {
    assert |rows.Keys| == 2;
    assert |rows.Keys - {TaskId(0), TaskId(1)}| == 0;
  }
}
