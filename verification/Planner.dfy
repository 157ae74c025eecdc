/** The planners: a plan read from a model's reply, and the plan the heuristics build. */
module Planner {
  import opened Dag
  import opened Waves
  import opened Tasks
  import opened Text
  import opened PlanText
  import opened Validation
  import opened TaskGraphs

  // ------------------------------------------------------- a plan from a model's reply

  function IdAt(next: nat, i: nat): TaskId {
    TaskId(next + i)
  }

  function IdsOf(next: nat, indices: seq<nat>): seq<TaskId> {
    seq(|indices|, i requires 0 <= i < |indices| => IdAt(next, indices[i]))
  }

  function TaskAt(row: PlanRow, next: nat, i: nat): Task {
    NewTask(IdAt(next, i), row.spec.(dependencies := IdsOf(next, row.dependencies)))
  }

  /** The plan holds row `i` as its `i`-th task, waiting for the tasks of the rows it names. */
  ghost predicate Realises(tasks: Rows, order: seq<TaskId>, rows: seq<PlanRow>, next: nat) {
    && |order| == |rows|
    && (forall i :: 0 <= i < |rows| ==> order[i] == IdAt(next, i) && order[i] in tasks
                                        && tasks[order[i]] == TaskAt(rows[i], next, i))
    && (forall t :: t in tasks ==> t in order)
  }

  ghost predicate NoRowRepeats(rows: seq<PlanRow>) {
    forall i :: 0 <= i < |rows| ==> NoRepeats(rows[i].dependencies)
  }

  lemma RowsAreTopological(tasks: Rows, order: seq<TaskId>, rows: seq<PlanRow>, next: nat, available: set<Capability>)
    requires Realises(tasks, order, rows, next) && BackwardRows(rows, available)
    ensures Topological(EdgesOf(tasks), order)
  {
    var e := EdgesOf(tasks);
    forall i, d | 0 <= i < |order| && d in e[order[i]]
      ensures Earlier(order, i, d)
    {
      var deps := rows[i].dependencies;
      assert RowFits(rows[i], available, i);
      var k :| 0 <= k < |deps| && IdAt(next, deps[k]) == d;
      assert deps[k] in deps;
      assert order[deps[k]] == d;
    }
  }

  /** Each task says what its row says, and waits for exactly the tasks of the rows its row names. */
  ghost predicate WaitsAsListed(tasks: Rows, order: seq<TaskId>, rows: seq<PlanRow>) {
    && |order| == |rows| && (forall t :: t in order ==> t in tasks)
    && (forall i :: 0 <= i < |rows| ==>
          && tasks[order[i]].spec.description == rows[i].spec.description
          && tasks[order[i]].spec.taskType == rows[i].spec.taskType
          && tasks[order[i]].spec.risk == rows[i].spec.risk && tasks[order[i]].status.Pending?)
    && forall i, j :: 0 <= i < |rows| && 0 <= j < |rows| ==>
          (order[j] in tasks[order[i]].spec.dependencies <==> j in rows[i].dependencies)
  }

  lemma RealisedAsListed(tasks: Rows, order: seq<TaskId>, rows: seq<PlanRow>, next: nat)
    requires Realises(tasks, order, rows, next)
    ensures WaitsAsListed(tasks, order, rows)
  {
    forall i, j | 0 <= i < |rows| && 0 <= j < |rows|
      ensures order[j] in tasks[order[i]].spec.dependencies <==> j in rows[i].dependencies
    {
      var deps, ids := rows[i].dependencies, tasks[order[i]].spec.dependencies;
      assert tasks[order[i]] == TaskAt(rows[i], next, i) && order[j] == IdAt(next, j);
      assert forall k :: 0 <= k < |deps| ==> ids[k] == IdAt(next, deps[k]);
      if j in deps {
        var k :| 0 <= k < |deps| && deps[k] == j;
        assert ids[k] == order[j];
      }
    }
  }

  lemma RepeatsAreRowRepeats(tasks: Rows, order: seq<TaskId>, rows: seq<PlanRow>, next: nat)
    requires Realises(tasks, order, rows, next)
    ensures RepeatFree(EdgesOf(tasks)) <==> NoRowRepeats(rows)
  {
    var e := EdgesOf(tasks);
    forall i | 0 <= i < |rows|
      ensures NoRepeats(e[order[i]]) <==> NoRepeats(rows[i].dependencies)
    {
      var deps, ids := rows[i].dependencies, e[order[i]];
      assert ids == IdsOf(next, deps);
      assert forall j, k :: 0 <= j < k < |deps| ==> (ids[j] == ids[k] <==> deps[j] == deps[k]);
    }
    assert forall t :: t in e ==> exists i :: 0 <= i < |order| && order[i] == t;
  }

  /** A plan in which every task waits for earlier ones only is sound unless a row repeats itself. */
  lemma TopologicalSoundness(tasks: Rows, order: seq<TaskId>)
    requires WellFormed(tasks, order) && Topological(EdgesOf(tasks), order)
    ensures Sound(EdgesOf(tasks)) <==> RepeatFree(EdgesOf(tasks))
  {
    var e := EdgesOf(tasks);
    TopologicalIsAcyclic(e, order);
    forall t, d | t in e && d in e[t]
      ensures d in e
    {
      var i :| 0 <= i < |order| && order[i] == t;
      assert Earlier(order, i, d);
    }
  }

  /** Collect the rows of a reply worth planning. */
  method CollectRows(reply: string, available: set<Capability>, alphanumeric: char -> bool)
    returns (rows: seq<PlanRow>)
    ensures rows == AcceptedRows(Lines(reply), available, alphanumeric)
  {
    hide ReadRow;
    hide Lines;
    rows := [];
    var lines := Lines(reply);
    for i := 0 to |lines|
      invariant rows == AcceptedRows(lines[..i], available, alphanumeric)
    {
      assert lines[..i + 1][..i] == lines[..i];
      var row := ReadRow(lines[i], available, alphanumeric, |rows|);
      if row.Some? {
        rows := rows + [row.value];
      }
    }
    assert lines[..|lines|] == lines;
  }

  /** The ids behind row numbers; numbers of rows not there yet are dropped. */
  function Resolve(ids: seq<TaskId>, indices: seq<nat>): seq<TaskId> {
    if indices == [] then []
    else
      var last := indices[|indices| - 1];
      Resolve(ids, indices[..|indices| - 1]) + if last < |ids| then [ids[last]] else []
  }

  lemma {:induction false} ResolvesAll(ids: seq<TaskId>, indices: seq<nat>, next: nat)
    requires forall i :: i in indices ==> i < |ids|
    requires forall i :: 0 <= i < |ids| ==> ids[i] == IdAt(next, i)
    ensures Resolve(ids, indices) == IdsOf(next, indices)
  {
    if indices != [] {
      var n := |indices| - 1;
      assert forall i :: i in indices[..n] ==> i in indices;
      ResolvesAll(ids, indices[..n], next);
      assert indices[n] in indices;
      assert IdsOf(next, indices) == IdsOf(next, indices[..n]) + [IdAt(next, indices[n])];
    }
  }

  lemma RealisesGrows(tasks: Rows, order: seq<TaskId>, rows: seq<PlanRow>, next: nat, i: nat)
    requires i < |rows| && Realises(tasks, order, rows[..i], next)
    requires forall d :: d in rows[i].dependencies ==> d < i
    ensures IdAt(next, i) !in tasks
    ensures var task := NewTask(IdAt(next, i), rows[i].spec.(dependencies := Resolve(order, rows[i].dependencies)));
            Realises(tasks[task.id := task], order + [task.id], rows[..i + 1], next)
  {
    hide IdsOf;
    hide Resolve;
    assert |order| == i;
    ResolvesAll(order, rows[i].dependencies, next);
    assert forall k :: 0 <= k < i ==> rows[..i + 1][k] == rows[..i][k];
    forall t | t in tasks
      ensures t.serial < next + i
    {
      var k :| 0 <= k < |order| && order[k] == t;
    }
    var order' := order + [IdAt(next, i)];
    assert forall t :: t in order || t == IdAt(next, i) ==> t in order';
  }

  /** Turn rows into a graph, drawing task ids from `next` on. */
  method BuildGraph(rows: seq<PlanRow>, next: nat, ghost available: set<Capability>) returns (graph: TaskGraph)
    requires BackwardRows(rows, available)
    ensures fresh(graph) && graph.Valid() && Realises(graph.tasks, graph.order, rows, next)
  {
    hide Realises;
    hide Resolve;
    hide WellFormed;
    graph := new TaskGraph();
    var ids: seq<TaskId> := [];
    RealisesNothing(next);
    assert rows[..0] == [];
    for i := 0 to |rows|
      invariant fresh(graph) && graph.Valid()
      invariant ids == graph.order
      invariant Realises(graph.tasks, graph.order, rows[..i], next)
    {
      assert RowFits(rows[i], available, i);
      RealisesGrows(graph.tasks, graph.order, rows, next, i);
      var task := NewTask(IdAt(next, i), rows[i].spec.(dependencies := Resolve(ids, rows[i].dependencies)));
      var id := graph.Add(task);
      ids := ids + [id];
    }
    assert rows[..|rows|] == rows;
  }

  lemma RealisesNothing(next: nat)
    ensures Realises(map[], [], [], next)
  {
  }

  /** Read a reply as a plan, or give up on it. Whatever the reply says, there is a plan
      exactly when at least two rows are accepted and none repeats a dependency; the plan is
      sound, its insertion order is topological, and everything in it can be executed. */
  method ParsePlan(reply: string, available: set<Capability>, alphanumeric: char -> bool, next: nat)
    returns (graph: TaskGraph?)
    ensures var rows := AcceptedRows(Lines(reply), available, alphanumeric);
            && (graph != null <==> |rows| >= 2 && NoRowRepeats(rows))
            && (graph != null ==>
                  && fresh(graph) && graph.Valid()
                  && WaitsAsListed(graph.tasks, graph.order, rows)
                  && Sound(EdgesOf(graph.tasks))
                  && Topological(EdgesOf(graph.tasks), graph.order))
    ensures graph != null && available != {} ==>
              forall t :: t in graph.tasks ==> BaselineCapabilities(graph.tasks[t].spec.taskType) <= available
  {
    var rows := CollectRows(reply, available, alphanumeric);
    AcceptedAreBackward(Lines(reply), available, alphanumeric);
    if |rows| < 2 {
      return null;
    }
    var built := BuildGraph(rows, next, available);
    RowsAreTopological(built.tasks, built.order, rows, next, available);
    RealisedAsListed(built.tasks, built.order, rows, next);
    RepeatsAreRowRepeats(built.tasks, built.order, rows, next);
    TopologicalSoundness(built.tasks, built.order);
    hide Sound;
    hide RepeatFree;
    hide Topological;
    hide NoRowRepeats;
    hide WaitsAsListed;
    var verdict := built.Validate();
    RealisesRunnable(built.tasks, built.order, rows, next, available);
    graph := if verdict.Valid? then built else null;
  }

  lemma RealisesRunnable(tasks: Rows, order: seq<TaskId>, rows: seq<PlanRow>, next: nat, available: set<Capability>)
    requires Realises(tasks, order, rows, next) && BackwardRows(rows, available)
    ensures available != {} ==> forall t :: t in tasks ==> BaselineCapabilities(tasks[t].spec.taskType) <= available
  {
    forall t | t in tasks && available != {}
      ensures BaselineCapabilities(tasks[t].spec.taskType) <= available
    {
      var i :| 0 <= i < |order| && order[i] == t;
      assert tasks[order[i]] == TaskAt(rows[i], next, i) && RowFits(rows[i], available, i);
    }
  }

  // ------------------------------------------------------------ the heuristic plan

  /** What the keywords of a goal suggest. */
  datatype GoalShape = GoalShape(changesCode: bool, needsResearch: bool, mentionsTests: bool, isInvestigation: bool,
                                 isReview: bool, isDocumentation: bool, isDesignHeavy: bool)

  /** Sound by construction, and everything but the first task waits for something. */
  ghost predicate Layered(tasks: Rows, order: seq<TaskId>, next: nat) {
    && WellFormed(tasks, order)
    && Topological(EdgesOf(tasks), order)
    && RepeatFree(EdgesOf(tasks))
    && (forall t :: t in tasks ==> t.serial < next)
    && (forall i :: 1 <= i < |order| ==> EdgesOf(tasks)[order[i]] != [])
  }

  lemma PushKeepsLayered(tasks: Rows, order: seq<TaskId>, next: nat, task: Task)
    requires Layered(tasks, order, next) && task.id == TaskId(next)
    requires NoRepeats(task.spec.dependencies) && forall d :: d in task.spec.dependencies ==> d in tasks
    requires order != [] ==> task.spec.dependencies != []
    ensures task.id !in tasks
    ensures Layered(tasks[task.id := task], order + [task.id], next + 1)
  {
    var e, e' := EdgesOf(tasks), EdgesOf(tasks[task.id := task]);
    ListsAppend(order, tasks.Keys, task.id);
    assert forall i :: 0 <= i < |order| ==> order[i] in order;
    assert Topological(e', order);
    AppendTopological(e', order, task.id);
    assert tasks[task.id := task].Keys == tasks.Keys + {task.id};
  }

  /** In such a plan every task waits, directly or not, for the first one. */
  lemma {:induction false} EverythingWaitsForTheFirst(tasks: Rows, order: seq<TaskId>, next: nat, i: nat)
    returns (p: seq<TaskId>)
    requires Layered(tasks, order, next) && 1 <= i < |order|
    ensures IsPath(EdgesOf(tasks), p) && |p| >= 2 && p[0] == order[i] && p[|p| - 1] == order[0]
  {
    var e := EdgesOf(tasks);
    var d := e[order[i]][0];
    assert d in e[order[i]];
    assert Earlier(order, i, d);
    var k :| 0 <= k < i && order[k] == d;
    if k == 0 {
      p := [order[i], d];
    } else {
      var rest := EverythingWaitsForTheFirst(tasks, order, next, k);
      p := [order[i]] + rest;
    }
  }

  // --------------------------------------------------------- what waits for what

  /** Whether a task of one kind waits for one of another: research and design for the inspection, the
      work itself for all three, its tests for it, the validation for both; and a review, when it
      closes a change, for the validation, and otherwise it is the work. */
  predicate Needs(kind: TaskType, other: TaskType, closing: bool) {
    match kind
    case Research => other == Inspection
    case Design => other == Inspection
    case Implementation => IsPreparation(other)
    case BugFix => IsPreparation(other)
    case Documentation => IsPreparation(other)
    case Testing => IsChange(other)
    case Validation => IsChange(other) || other == TaskType.Testing
    case Review => if closing then other == Validation else IsPreparation(other)
    case _ => false
  }

  predicate IsPreparation(kind: TaskType) {
    kind == Inspection || kind == TaskType.Research || kind == Design
  }

  predicate IsChange(kind: TaskType) {
    kind == Implementation || kind == BugFix
  }

  /** One task of each kind, and each waits for exactly the tasks it needs. */
  ghost predicate Fits(tasks: Rows, kinds: set<TaskType>, closing: bool) {
    OneOfEach(tasks, kinds) && WaitsAsNeeded(tasks, closing)
  }

  ghost predicate OneOfEach(tasks: Rows, kinds: set<TaskType>) {
    && (forall t :: t in tasks ==> tasks[t].spec.taskType in kinds)
    && (forall k :: k in kinds ==> exists t :: t in tasks && tasks[t].spec.taskType == k)
    && (forall t, u :: t in tasks && u in tasks && tasks[t].spec.taskType == tasks[u].spec.taskType ==> t == u)
  }

  ghost predicate WaitsAsNeeded(tasks: Rows, closing: bool) {
    forall t, d :: t in tasks && d in tasks ==>
      (d in tasks[t].spec.dependencies <==> Needs(tasks[t].spec.taskType, tasks[d].spec.taskType, closing))
  }

  /** `after` are the tasks that one of the kind would wait for. */
  ghost predicate Awaited(tasks: Rows, kind: TaskType, closing: bool, after: seq<TaskId>) {
    && (forall d :: d in after ==> d in tasks)
    && forall d :: d in tasks ==> (d in after <==> Needs(kind, tasks[d].spec.taskType, closing))
  }

  lemma WaitsGrow(tasks: Rows, kinds: set<TaskType>, closing: bool, id: TaskId, task: Task)
    requires WaitsAsNeeded(tasks, closing) && id !in tasks
    requires forall t :: t in tasks ==> tasks[t].spec.taskType in kinds
    requires Awaited(tasks, task.spec.taskType, closing, task.spec.dependencies)
    requires !Needs(task.spec.taskType, task.spec.taskType, closing)
    requires forall k :: k in kinds ==> !Needs(k, task.spec.taskType, closing)
    requires forall t :: t in tasks ==> id !in tasks[t].spec.dependencies
    ensures WaitsAsNeeded(tasks[id := task], closing)
  {
    hide Needs;
    assert id !in task.spec.dependencies;
  }

  lemma OneOfEachGrows(tasks: Rows, kinds: set<TaskType>, id: TaskId, task: Task)
    requires OneOfEach(tasks, kinds) && id !in tasks && task.spec.taskType !in kinds
    ensures OneOfEach(tasks[id := task], kinds + {task.spec.taskType})
  {
    var more := tasks[id := task];
    assert more[id].spec.taskType == task.spec.taskType;
    forall k | k in kinds
      ensures exists t :: t in more && more[t].spec.taskType == k
    {
      var t :| t in tasks && tasks[t].spec.taskType == k;
      assert more[t].spec.taskType == k;
    }
  }

  lemma FitsGrows(tasks: Rows, kinds: set<TaskType>, closing: bool, id: TaskId, spec: TaskSpec, after: seq<TaskId>)
    requires Fits(tasks, kinds, closing) && id !in tasks && spec.taskType !in kinds
    requires Awaited(tasks, spec.taskType, closing, after)
    requires !Needs(spec.taskType, spec.taskType, closing)
    requires forall k :: k in kinds ==> !Needs(k, spec.taskType, closing)
    requires forall t :: t in tasks ==> id !in tasks[t].spec.dependencies
    ensures Fits(tasks[id := NewTask(id, spec.(dependencies := after))], kinds + {spec.taskType}, closing)
  {
    var task := NewTask(id, spec.(dependencies := after));
    hide Needs; hide Awaited; hide WaitsAsNeeded;
    assert forall t :: t in tasks ==> tasks[t].spec.taskType in kinds;
    WaitsGrow(tasks, kinds, closing, id, task);
    hide OneOfEach;
    OneOfEachGrows(tasks, kinds, id, task);
  }

  /** The kinds of task a goal of this shape calls for. */
  function KindsFor(shape: GoalShape, alwaysValidate: bool): set<TaskType> {
    PreparationKinds(shape) + {WorkKind(shape)} + FollowUpKinds(shape, alwaysValidate)
  }

  /** The goal asks for findings, a review or a document, and for no change. */
  predicate IsReport(shape: GoalShape) {
    !shape.changesCode && (shape.isInvestigation || shape.isReview || shape.isDocumentation)
  }

  /** Add a task depending on everything in `after`. */
  method Push(graph: TaskGraph, spec: TaskSpec, after: seq<TaskId>, next: nat) returns (id: TaskId)
    requires graph.Valid() && Layered(graph.tasks, graph.order, next)
    requires spec.dependencies == [] && NoRepeats(after) && forall d :: d in after ==> d in graph.tasks
    requires graph.order != [] ==> after != []
    modifies graph
    ensures graph.Valid() && Layered(graph.tasks, graph.order, next + 1)
    ensures id == TaskId(next) && id !in old(graph.tasks)
    ensures graph.order == old(graph.order) + [id]
    ensures graph.tasks == old(graph.tasks)[id := NewTask(id, spec.(dependencies := after))]
  {
    var task := NewTask(TaskId(next), spec.(dependencies := spec.dependencies + after));
    assert [] + after == after;
    PushKeepsLayered(graph.tasks, graph.order, next, task);
    hide Layered;
    hide WellFormed;
    id := graph.Add(task);
  }

  lemma LayeredIsSound(tasks: Rows, order: seq<TaskId>, next: nat)
    requires Layered(tasks, order, next)
    ensures Sound(EdgesOf(tasks)) && Topological(EdgesOf(tasks), order)
  {
    TopologicalSoundness(tasks, order);
  }

  function PreparationKinds(shape: GoalShape): set<TaskType> {
    {Inspection}
    + (if shape.needsResearch then {TaskType.Research} else {})
    + (if shape.isDesignHeavy then {Design} else {})
  }

  function WorkKind(shape: GoalShape): TaskType {
    if shape.isInvestigation then BugFix
    else if !IsReport(shape) then Implementation
    else if shape.isReview then Review else TaskType.Documentation
  }

  function FollowUpKinds(shape: GoalShape, alwaysValidate: bool): set<TaskType> {
    if IsReport(shape) then {}
    else (if shape.mentionsTests then {TaskType.Testing} else {}) + if alwaysValidate then {Validation, Review} else {}
  }

  /** Preparations only, all of them awaited by what comes next. */
  ghost predicate Prepared(tasks: Rows, prerequisites: seq<TaskId>, kinds: set<TaskType>, closing: bool) {
    && Fits(tasks, kinds, closing) && (forall k :: k in kinds ==> IsPreparation(k))
    && (forall d :: d in prerequisites <==> d in tasks)
  }

  lemma PreparedIsAwaited(tasks: Rows, prerequisites: seq<TaskId>, kinds: set<TaskType>, kind: TaskType, closing: bool)
    requires Prepared(tasks, prerequisites, kinds, closing)
    requires kind == Implementation || kind == BugFix || kind == TaskType.Documentation || (kind == Review && !closing)
    ensures Awaited(tasks, kind, closing, prerequisites) && kind !in kinds && !Needs(kind, kind, closing)
    ensures forall k :: k in kinds ==> !Needs(k, kind, closing)
  {
    WorkNeeds(kind, closing);
    hide Needs;
    PreparedFits(tasks, prerequisites, kinds, closing);
    KindsThere(tasks, kinds, closing);
    hide Fits; hide IsPreparation;
  }

  /** What does the work waits for the preparations, and they do not wait for it. */
  lemma WorkNeeds(kind: TaskType, closing: bool)
    requires kind == Implementation || kind == BugFix || kind == TaskType.Documentation || (kind == Review && !closing)
    ensures forall k :: Needs(kind, k, closing) <==> IsPreparation(k)
    ensures !IsPreparation(kind) && forall k :: IsPreparation(k) ==> !Needs(k, kind, closing)
  {
  }

  lemma KindsThere(tasks: Rows, kinds: set<TaskType>, closing: bool)
    requires Fits(tasks, kinds, closing)
    ensures forall t :: t in tasks ==> tasks[t].spec.taskType in kinds
  {
  }

  lemma FirstFits(id: TaskId, spec: TaskSpec, closing: bool)
    requires spec.taskType == Inspection && spec.dependencies == []
    ensures Prepared(map[id := NewTask(id, spec)], [id], {Inspection}, closing)
  {
    var tasks: Rows := map[id := NewTask(id, spec)];
    assert id in tasks && tasks[id].spec.taskType == Inspection;
  }

  /** Research and design wait for the inspection alone. */
  lemma OneMorePrepared(tasks: Rows, prerequisites: seq<TaskId>, kinds: set<TaskType>, closing: bool, inspect: TaskId,
                        id: TaskId, spec: TaskSpec)
    requires Prepared(tasks, prerequisites, kinds, closing) && id !in tasks && spec.taskType !in kinds
    requires inspect in tasks && tasks[inspect].spec.taskType == Inspection
    requires (spec.taskType == TaskType.Research || spec.taskType == Design)
    requires forall t :: t in tasks ==> id !in tasks[t].spec.dependencies
    ensures Prepared(tasks[id := NewTask(id, spec.(dependencies := [inspect]))], prerequisites + [id],
                     kinds + {spec.taskType}, closing)
  {
    FitsGrows(tasks, kinds, closing, id, spec, [inspect]);
    hide Fits;
  }

  /** Nobody waits for a task that is not there yet. */
  lemma NobodyAwaits(tasks: Rows, order: seq<TaskId>, next: nat, id: TaskId)
    requires Layered(tasks, order, next) && id !in tasks
    ensures forall t :: t in tasks ==> id !in tasks[t].spec.dependencies
  {
    var e := EdgesOf(tasks);
    forall t, d | t in tasks && d in e[t]
      ensures d in tasks
    {
      assert t in order;
      var i :| 0 <= i < |order| && order[i] == t;
      assert Earlier(order, i, d);
      var k :| 0 <= k < i && order[k] == d;
      assert order[k] in order;
    }
    assert forall t :: t in tasks ==> e[t] == tasks[t].spec.dependencies;
  }

  /** The plan for a goal of a given shape; validating it never fails, and there is one for
      every goal that is not blank. */
  method PlanFor(goal: string, shape: GoalShape, alwaysValidate: bool, next: nat)
    returns (graph: TaskGraph?, ghost last: nat)
    ensures graph == null <==> Trim(goal) == []
    ensures graph != null ==>
              && fresh(graph) && graph.Valid() && last >= next
              && Layered(graph.tasks, graph.order, last)
              && Sound(EdgesOf(graph.tasks))
              && 2 <= |graph.order| <= 7
              && Fits(graph.tasks, KindsFor(shape, alwaysValidate), !IsReport(shape))
  {
    last := next;
    var text := Trim(goal);
    if text == [] {
      return null, last;
    }
    var n;
    var built := new TaskGraph();
    EmptyIsLayered(next);
    KindsAdd(shape, alwaysValidate);
    hide Layered;
    hide WellFormed;
    hide Trim;
    hide Fits;
    hide Prepared;
    hide Awaited;
    hide Needs;
    hide KindsFor;
    var prerequisites;
    prerequisites, n := Prepare(built, text, shape, next);
    if IsReport(shape) {
      n := PlanReport(built, text, shape, prerequisites, n);
    } else {
      n := PlanChange(built, text, shape, alwaysValidate, prerequisites, n);
    }
    LayeredIsSound(built.tasks, built.order, n);
    hide Sound;
    var verdict := built.Validate();
    graph, last := if verdict.Valid? then built else null, n;
  }

  /** Every plan starts by looking at the repository; research and design only need that. */
  method Prepare(graph: TaskGraph, text: string, shape: GoalShape, next: nat)
    returns (prerequisites: seq<TaskId>, n: nat)
    requires graph.Valid() && Layered(graph.tasks, graph.order, next) && graph.order == [] && graph.tasks == map[]
    modifies graph
    ensures Prepared(graph.tasks, prerequisites, PreparationKinds(shape), !IsReport(shape))
    ensures graph.Valid() && Layered(graph.tasks, graph.order, n)
    ensures prerequisites != [] && NoRepeats(prerequisites) && forall d :: d in prerequisites ==> d in graph.tasks
    ensures next < n <= next + 3 && |graph.order| == n - next
  {
    hide Layered;
    hide WellFormed;
    hide Prepared;
    hide IsReport;
    ghost var closing := !IsReport(shape);
    var spec := NewSpec("Inspect the repository to understand: " + text, Inspection).(priority := 9);
    FirstFits(TaskId(next), spec, closing);
    ghost var kinds := {Inspection};
    var inspect := Push(graph, spec, [], next);
    n := next + 1;
    prerequisites := [inspect];
    if shape.needsResearch {
      var topic := NewSpec("Research what is needed to: " + text, TaskType.Research);
      prerequisites := PushPreparation(graph, topic, inspect, prerequisites, n, kinds, closing);
      kinds, n := kinds + {TaskType.Research}, n + 1;
    }
    if shape.isDesignHeavy {
      var approach := NewSpec("Design the approach for: " + text, Design);
      prerequisites := PushPreparation(graph, approach, inspect, prerequisites, n, kinds, closing);
      kinds, n := kinds + {Design}, n + 1;
    }
    assert kinds == PreparationKinds(shape);
  }

  /** Research or design, which what comes next waits for, too. */
  method PushPreparation(graph: TaskGraph, spec: TaskSpec, inspect: TaskId, prerequisites: seq<TaskId>, next: nat,
                         ghost kinds: set<TaskType>, ghost closing: bool)
    returns (more: seq<TaskId>)
    requires graph.Valid() && Layered(graph.tasks, graph.order, next)
    requires NoRepeats(prerequisites) && forall d :: d in prerequisites ==> d in graph.tasks
    requires Prepared(graph.tasks, prerequisites, kinds, closing)
    requires spec.taskType == TaskType.Research || spec.taskType == Design
    requires spec.taskType !in kinds && spec.dependencies == []
    requires inspect in graph.tasks && graph.tasks[inspect].spec.taskType == Inspection
    modifies graph
    ensures graph.Valid() && Layered(graph.tasks, graph.order, next + 1) && |graph.order| == |old(graph.order)| + 1
    ensures inspect in graph.tasks && graph.tasks[inspect].spec.taskType == Inspection
    ensures more != [] && NoRepeats(more) && forall d :: d in more ==> d in graph.tasks
    ensures Prepared(graph.tasks, more, kinds + {spec.taskType}, closing)
  {
    NobodyAwaits(graph.tasks, graph.order, next, TaskId(next));
    NotYetThere(graph.tasks, graph.order, next);
    OneMorePrepared(graph.tasks, prerequisites, kinds, closing, inspect, TaskId(next), spec);
    OneMoreListed(prerequisites, graph.tasks.Keys, TaskId(next));
    hide *;
    var id := Push(graph, spec, [inspect], next);
    more := prerequisites + [id];
  }

  lemma OneMoreListed(s: seq<TaskId>, keys: set<TaskId>, id: TaskId)
    requires NoRepeats(s) && (forall d :: d in s ==> d in keys) && id !in keys
    ensures NoRepeats(s + [id]) && (forall d :: d in s + [id] ==> d in keys || d == id)
    ensures forall d: TaskId :: NoRepeats([d])
  {
    assert forall i :: 0 <= i < |s| ==> s[i] in s;
  }

  lemma EmptyIsLayered(next: nat)
    ensures Layered(map[], [], next)
  {
  }

  lemma PreparedFits(tasks: Rows, prerequisites: seq<TaskId>, kinds: set<TaskType>, closing: bool)
    requires Prepared(tasks, prerequisites, kinds, closing)
    ensures Fits(tasks, kinds, closing) && forall k :: k in kinds ==> IsPreparation(k)
  {
    hide Fits;
  }

  lemma NotYetThere(tasks: Rows, order: seq<TaskId>, next: nat)
    requires Layered(tasks, order, next)
    ensures TaskId(next) !in tasks
  {
  }

  lemma KindsAdd(shape: GoalShape, alwaysValidate: bool)
    ensures KindsFor(shape, alwaysValidate)
         == if IsReport(shape) then PreparationKinds(shape) + {WorkKind(shape)}
            else PreparationKinds(shape) + {WorkKind(shape)} + FollowUpKinds(shape, alwaysValidate)
  {
  }

  /** A goal that asks for no change ends with what it asks for. */
  method PlanReport(graph: TaskGraph, text: string, shape: GoalShape, prerequisites: seq<TaskId>, next: nat)
    returns (n: nat)
    requires graph.Valid() && Layered(graph.tasks, graph.order, next)
    requires prerequisites != [] && NoRepeats(prerequisites) && forall d :: d in prerequisites ==> d in graph.tasks
    requires IsReport(shape) && Prepared(graph.tasks, prerequisites, PreparationKinds(shape), false)
    modifies graph
    ensures graph.Valid() && Layered(graph.tasks, graph.order, n)
    ensures n == next + 1 && |graph.order| == |old(graph.order)| + 1
    ensures Fits(graph.tasks, PreparationKinds(shape) + {WorkKind(shape)}, false)
  {
    hide *;
    var spec := ReportSpec(text, shape);
    ghost var kinds := PreparationKinds(shape);
    PreparedFits(graph.tasks, prerequisites, kinds, false);
    PreparedIsAwaited(graph.tasks, prerequisites, kinds, spec.taskType, false);
    var only := PushFitting(graph, spec, prerequisites, next, kinds, false);
    n := next + 1;
  }

  function ReportSpec(text: string, shape: GoalShape): (spec: TaskSpec)
    requires IsReport(shape)
    ensures spec.taskType == WorkKind(shape) && spec.dependencies == []
    ensures spec.taskType == BugFix || spec.taskType == Review || spec.taskType == TaskType.Documentation
  {
    if shape.isInvestigation then NewSpec("Investigate and report findings for: " + text, BugFix).(risk := ReadOnly)
    else if shape.isReview then NewSpec("Review: " + text, Review).(risk := ReadOnly)
    else NewSpec("Write documentation for: " + text, TaskType.Documentation).(risk := Low)
  }

  /** The tasks that change code: implement, then perhaps tests, validation and review. */
  method PlanChange(graph: TaskGraph, text: string, shape: GoalShape, alwaysValidate: bool,
                    prerequisites: seq<TaskId>, next: nat) returns (n: nat)
    requires graph.Valid() && Layered(graph.tasks, graph.order, next)
    requires prerequisites != [] && NoRepeats(prerequisites) && forall d :: d in prerequisites ==> d in graph.tasks
    requires !IsReport(shape) && Prepared(graph.tasks, prerequisites, PreparationKinds(shape), true)
    modifies graph
    ensures graph.Valid() && Layered(graph.tasks, graph.order, n)
    ensures next < n <= next + 4 && |graph.order| == |old(graph.order)| + n - next
    ensures Fits(graph.tasks, PreparationKinds(shape) + {WorkKind(shape)} + FollowUpKinds(shape, alwaysValidate), true)
  {
    ChangeKindsAdd(shape, alwaysValidate);
    hide *;
    var awaited;
    awaited, n := PlanWork(graph, text, shape, prerequisites, next);
    if alwaysValidate {
      n := CloseChange(graph, text, awaited, n, ChangeKinds(shape));
      assert Fits(graph.tasks, ChangeKinds(shape) + {Validation} + {Review}, true);
    } else {
      assert Fits(graph.tasks, ChangeKinds(shape), true);
    }
  }

  function ChangeKinds(shape: GoalShape): set<TaskType> {
    PreparationKinds(shape) + {WorkKind(shape)} + if shape.mentionsTests then {TaskType.Testing} else {}
  }

  lemma ChangeKindsAdd(shape: GoalShape, alwaysValidate: bool)
    requires !IsReport(shape)
    ensures PreparationKinds(shape) + {WorkKind(shape)} + FollowUpKinds(shape, alwaysValidate)
         == if alwaysValidate then ChangeKinds(shape) + {Validation} + {Review} else ChangeKinds(shape)
    ensures Validation !in ChangeKinds(shape) && Review !in ChangeKinds(shape)
  {
  }

  /** The change itself, and its tests if the goal speaks of tests. */
  method PlanWork(graph: TaskGraph, text: string, shape: GoalShape, prerequisites: seq<TaskId>, next: nat)
    returns (awaited: seq<TaskId>, n: nat)
    requires graph.Valid() && Layered(graph.tasks, graph.order, next)
    requires prerequisites != [] && NoRepeats(prerequisites) && forall d :: d in prerequisites ==> d in graph.tasks
    requires !IsReport(shape) && Prepared(graph.tasks, prerequisites, PreparationKinds(shape), true)
    modifies graph
    ensures graph.Valid() && Layered(graph.tasks, graph.order, n)
    ensures next < n <= next + 2 && |graph.order| == |old(graph.order)| + n - next
    ensures Fits(graph.tasks, ChangeKinds(shape), true) && Awaited(graph.tasks, Validation, true, awaited)
    ensures awaited != [] && NoRepeats(awaited) && forall d :: d in awaited ==> d in graph.tasks
  {
    NobodyNeedsTests();
    hide Layered; hide WellFormed; hide Fits; hide Prepared; hide Awaited; hide Needs; hide PreparationKinds;
    hide NewSpec;
    ghost var kinds := PreparationKinds(shape);
    PreparedFits(graph.tasks, prerequisites, kinds, true);
    var kind := if shape.isInvestigation then BugFix else Implementation;
    var change := NewSpec("Implement: " + text, kind).(risk := Medium);
    SpecIs("Implement: " + text, kind);
    PreparedIsAwaited(graph.tasks, prerequisites, kinds, kind, true);
    var implement := PushFitting(graph, change, prerequisites, next, kinds, true);
    kinds := kinds + {kind};
    n := next + 1;
    awaited := [implement];
    if shape.mentionsTests {
      var tests := PlanTests(graph, text, implement, n, kinds);
      kinds := kinds + {TaskType.Testing};
      n := n + 1;
      awaited := awaited + [tests];
    }
    assert kinds == ChangeKinds(shape);
    ChangeAndTests(graph.tasks, kinds, awaited);
  }

  method PlanTests(graph: TaskGraph, text: string, implement: TaskId, next: nat, ghost kinds: set<TaskType>)
    returns (tests: TaskId)
    requires graph.Valid() && Layered(graph.tasks, graph.order, next) && Fits(graph.tasks, kinds, true)
    requires implement in graph.tasks && IsChange(graph.tasks[implement].spec.taskType)
    requires !(Implementation in kinds && BugFix in kinds) && forall k :: k in kinds ==> IsPreparation(k) || IsChange(k)
    modifies graph
    ensures graph.Valid() && Layered(graph.tasks, graph.order, next + 1)
    ensures tests == TaskId(next) && graph.order == old(graph.order) + [tests] && tests !in old(graph.tasks)
    ensures tests in graph.tasks && graph.tasks[tests].spec.taskType == TaskType.Testing
    ensures graph.tasks == old(graph.tasks)[tests := graph.tasks[tests]]
    ensures Fits(graph.tasks, kinds + {TaskType.Testing}, true)
  {
    NobodyNeedsTests();
    NotYetThere(graph.tasks, graph.order, next);
    hide Layered; hide WellFormed; hide Fits; hide Awaited; hide Needs; hide NewSpec;
    var testing := NewSpec("Write or update tests for: " + text, TaskType.Testing).(risk := Low);
    SpecIs("Write or update tests for: " + text, TaskType.Testing);
    OnlyOfKind(graph.tasks, kinds, implement, TaskType.Testing);
    tests := PushFitting(graph, testing, [implement], next, kinds, true);
  }

  /** Validate what was changed, and review it then. */
  method CloseChange(graph: TaskGraph, text: string, awaited: seq<TaskId>, next: nat, ghost kinds: set<TaskType>)
    returns (n: nat)
    requires graph.Valid() && Layered(graph.tasks, graph.order, next) && Fits(graph.tasks, kinds, true)
    requires awaited != [] && NoRepeats(awaited) && forall d :: d in awaited ==> d in graph.tasks
    requires Awaited(graph.tasks, Validation, true, awaited) && Validation !in kinds && Review !in kinds
    modifies graph
    ensures graph.Valid() && Layered(graph.tasks, graph.order, n)
    ensures n == next + 2 && |graph.order| == |old(graph.order)| + 2
    ensures Fits(graph.tasks, kinds + {Validation} + {Review}, true)
  {
    NobodyNeedsLast();
    hide Layered; hide WellFormed; hide Fits; hide Awaited; hide Needs;
    var check := NewSpec("Run the project's tests and report failures", TaskType.Validation).(risk := Low);
    var validate := PushFitting(graph, check, awaited, next, kinds, true);
    var closing := NewSpec("Review the changes made for: " + text, Review).(risk := ReadOnly);
    OnlyOfKind(graph.tasks, kinds + {Validation}, validate, Review);
    var review := PushFitting(graph, closing, [validate], next + 1, kinds + {Validation}, true);
    n := next + 2;
  }

  lemma SpecIs(description: string, kind: TaskType)
    ensures NewSpec(description, kind).taskType == kind && NewSpec(description, kind).dependencies == []
  {
  }

  lemma NobodyNeedsTests()
    ensures forall k :: IsPreparation(k) || IsChange(k) ==> !Needs(k, TaskType.Testing, true)
    ensures !Needs(TaskType.Testing, TaskType.Testing, true)
  {
  }

  lemma NobodyNeedsLast()
    ensures forall k :: k != Review ==> !Needs(k, Validation, true)
    ensures forall k :: !Needs(k, Review, true)
  {
  }

  /** Add a task of a new kind behind exactly the tasks it needs. */
  method PushFitting(graph: TaskGraph, spec: TaskSpec, after: seq<TaskId>, next: nat, ghost kinds: set<TaskType>,
                     ghost closing: bool)
    returns (id: TaskId)
    requires graph.Valid() && Layered(graph.tasks, graph.order, next) && Fits(graph.tasks, kinds, closing)
    requires spec.dependencies == [] && NoRepeats(after) && after != [] && forall d :: d in after ==> d in graph.tasks
    requires spec.taskType !in kinds && Awaited(graph.tasks, spec.taskType, closing, after)
    requires !Needs(spec.taskType, spec.taskType, closing)
    requires forall k :: k in kinds ==> !Needs(k, spec.taskType, closing)
    modifies graph
    ensures graph.Valid() && Layered(graph.tasks, graph.order, next + 1)
    ensures id == TaskId(next) && graph.order == old(graph.order) + [id]
    ensures graph.tasks == old(graph.tasks)[id := NewTask(id, spec.(dependencies := after))]
    ensures Fits(graph.tasks, kinds + {spec.taskType}, closing)
  {
    NobodyAwaits(graph.tasks, graph.order, next, TaskId(next));
    NotYetThere(graph.tasks, graph.order, next);
    FitsGrows(graph.tasks, kinds, closing, TaskId(next), spec, after);
    hide Layered; hide WellFormed; hide Fits; hide Awaited; hide Needs;
    id := Push(graph, spec, after, next);
  }

  /** The one task a kind needs. */
  lemma OnlyOfKind(tasks: Rows, kinds: set<TaskType>, id: TaskId, kind: TaskType)
    requires Fits(tasks, kinds, true) && id in tasks
    requires || (kind == TaskType.Testing && IsChange(tasks[id].spec.taskType)
                 && !(Implementation in kinds && BugFix in kinds))
             || (kind == Review && tasks[id].spec.taskType == Validation)
    ensures Awaited(tasks, kind, true, [id])
  {
    TestsAndReviewNeed();
    hide Needs;
    forall d | d in tasks
      ensures d in [id] <==> Needs(kind, tasks[d].spec.taskType, true)
    {
      KindOf(tasks, kinds, true, id, d);
      hide Fits;
    }
    hide Fits;
  }

  lemma TestsAndReviewNeed()
    ensures forall k :: Needs(TaskType.Testing, k, true) <==> IsChange(k)
    ensures forall k :: Needs(Review, k, true) <==> k == Validation
  {
  }

  lemma KindOf(tasks: Rows, kinds: set<TaskType>, closing: bool, t: TaskId, d: TaskId)
    requires Fits(tasks, kinds, closing) && t in tasks && d in tasks
    ensures tasks[t].spec.taskType in kinds && tasks[d].spec.taskType in kinds
    ensures tasks[t].spec.taskType == tasks[d].spec.taskType ==> t == d
  {
  }

  lemma ChangeAndTests(tasks: Rows, kinds: set<TaskType>, awaited: seq<TaskId>)
    requires Fits(tasks, kinds, true) && !(Implementation in kinds && BugFix in kinds)
    requires |awaited| == 1 || |awaited| == 2
    requires awaited[0] in tasks && IsChange(tasks[awaited[0]].spec.taskType)
    requires |awaited| == 2 ==> awaited[1] in tasks && tasks[awaited[1]].spec.taskType == TaskType.Testing
    requires |awaited| == 1 ==> TaskType.Testing !in kinds
    ensures Awaited(tasks, Validation, true, awaited)
  {
    hide Needs;
    forall d | d in tasks
      ensures d in awaited <==> IsChange(tasks[d].spec.taskType) || tasks[d].spec.taskType == TaskType.Testing
    {
    }
    hide Fits;
    ValidationNeeds();
  }

  lemma ValidationNeeds()
    ensures forall k :: Needs(Validation, k, true) <==> IsChange(k) || k == TaskType.Testing
  {
  }

  /** What a goal calls for, kind by kind. */
  lemma KindsAreCalledFor(shape: GoalShape, alwaysValidate: bool)
    ensures var kinds := KindsFor(shape, alwaysValidate);
            var asksOnly := !shape.changesCode && (shape.isInvestigation || shape.isReview || shape.isDocumentation);
            && Inspection in kinds
            && (TaskType.Research in kinds <==> shape.needsResearch)
            && (Design in kinds <==> shape.isDesignHeavy)
            && (BugFix in kinds <==> shape.isInvestigation)
            && (Implementation in kinds <==> !asksOnly && !shape.isInvestigation)
            && (TaskType.Documentation in kinds <==> asksOnly && !shape.isInvestigation && !shape.isReview)
            && (TaskType.Testing in kinds <==> !asksOnly && shape.mentionsTests)
            && (Validation in kinds <==> !asksOnly && alwaysValidate)
            && (Review in kinds <==> if asksOnly then shape.isReview && !shape.isInvestigation else alwaysValidate)
  {
  }

  /** `t` waits, directly or not, for `d`. */
  ghost predicate WaitsFor(e: Edges, t: TaskId, d: TaskId) {
    exists p :: IsPath(e, p) && |p| >= 2 && p[0] == t && p[|p| - 1] == d
  }

  /** The review that closes a change waits, directly or not, for every other task of the plan, and so
      does the one task a goal without a change asks for. */
  lemma LastWaitsForAll(tasks: Rows, shape: GoalShape, alwaysValidate: bool, last: TaskId, t: TaskId)
    requires Fits(tasks, KindsFor(shape, alwaysValidate), !IsReport(shape))
    requires last in tasks && t in tasks && t != last
    requires tasks[last].spec.taskType == if IsReport(shape) then WorkKind(shape) else Review
    ensures WaitsFor(EdgesOf(tasks), last, t)
  {
    var kind, kinds, closing := tasks[t].spec.taskType, KindsFor(shape, alwaysValidate), !IsReport(shape);
    KindOf(tasks, kinds, closing, last, t);
    KindsNeed(shape, alwaysValidate, tasks[last].spec.taskType, kind);
    hide *;
    if Needs(tasks[last].spec.taskType, kind, closing) {
      Directly(tasks, kinds, closing, last, t);
    } else {
      var validate := OfKind(tasks, kinds, closing, Validation);
      if Needs(Validation, kind, closing) {
        Directly(tasks, kinds, closing, validate, t);
      } else {
        var work := OfKind(tasks, kinds, closing, WorkKind(shape));
        Directly(tasks, kinds, closing, work, t);
        Through(tasks, kinds, closing, validate, work, t);
      }
      Through(tasks, kinds, closing, last, validate, t);
    }
  }

  lemma Directly(tasks: Rows, kinds: set<TaskType>, closing: bool, t: TaskId, d: TaskId)
    requires Fits(tasks, kinds, closing) && t in tasks && d in tasks
    requires Needs(tasks[t].spec.taskType, tasks[d].spec.taskType, closing)
    ensures WaitsFor(EdgesOf(tasks), t, d)
  {
    assert d in EdgesOf(tasks)[t];
    assert IsPath(EdgesOf(tasks), [t, d]);
  }

  lemma Through(tasks: Rows, kinds: set<TaskType>, closing: bool, t: TaskId, u: TaskId, d: TaskId)
    requires Fits(tasks, kinds, closing) && t in tasks && u in tasks
    requires Needs(tasks[t].spec.taskType, tasks[u].spec.taskType, closing)
    requires WaitsFor(EdgesOf(tasks), u, d)
    ensures WaitsFor(EdgesOf(tasks), t, d)
  {
    assert u in EdgesOf(tasks)[t];
    hide WaitsFor;
    Further(EdgesOf(tasks), t, u, d);
  }

  lemma Further(e: Edges, t: TaskId, u: TaskId, d: TaskId)
    requires t in e && u in e[t] && WaitsFor(e, u, d)
    ensures WaitsFor(e, t, d)
  {
    var p :| IsPath(e, p) && |p| >= 2 && p[0] == u && p[|p| - 1] == d;
    var longer := [t] + p;
    forall i | 0 <= i < |longer|
      ensures longer[i] in e && (i < |longer| - 1 ==> longer[i + 1] in e[longer[i]])
    {
      assert i > 0 ==> longer[i] == p[i - 1];
    }
    assert IsPath(e, longer);
  }

  lemma KindsNeed(shape: GoalShape, alwaysValidate: bool, last: TaskType, kind: TaskType)
    requires kind in KindsFor(shape, alwaysValidate) && last in KindsFor(shape, alwaysValidate) && kind != last
    requires last == if IsReport(shape) then WorkKind(shape) else Review
    ensures var kinds, closing, work := KindsFor(shape, alwaysValidate), !IsReport(shape), WorkKind(shape);
            || Needs(last, kind, closing)
            || (Validation in kinds && Needs(last, Validation, closing)
                && (|| Needs(Validation, kind, closing)
                    || (work in kinds && Needs(Validation, work, closing) && Needs(work, kind, closing))))
  {
  }

  lemma OfKind(tasks: Rows, kinds: set<TaskType>, closing: bool, kind: TaskType) returns (t: TaskId)
    requires Fits(tasks, kinds, closing) && kind in kinds
    ensures t in tasks && tasks[t].spec.taskType == kind
  {
    t :| t in tasks && tasks[t].spec.taskType == kind;
  }
}
