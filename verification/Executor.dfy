/** The orchestrator: runs the tasks of a plan wave by wave. */
module Executor {
  import opened Dag
  import opened Tokens
  import opened Waves
  import opened Tasks
  import opened Ledgers
  import opened Attempts
  import Courses
  import opened Validation
  import opened TaskGraphs
  import opened Replanning
  import opened Totals
  import opened Frontiers
  import opened Runs
  import opened Cascades
  import opened Books
  import opened Admission
  import opened Endings
  import opened Journeys

  class Orchestrator {
    const env: Env
    /** Attempts allowed per task, over all agents. */
    const cap: nat
    const parallelism: nat
    const ownership: OwnershipLedger
    var usage: seq<UsageRecord>
    var history: seq<OutcomeRecord>
    /** Serial of the next task id to be drawn. */
    var next: nat

    constructor (env: Env, maxRetries: nat, parallelism: nat, ownership: OwnershipLedger, next: nat)
      ensures this.env == env && this.parallelism == parallelism && this.ownership == ownership
      ensures cap == (if maxRetries > 1 then maxRetries else 1) + 1
      ensures usage == [] && history == [] && this.next == next
    {
      this.env, this.parallelism, this.ownership, this.next := env, parallelism, ownership, next;
      cap := (if maxRetries > 1 then maxRetries else 1) + 1;
      usage, history := [], [];
    }

    /** Write one attempt into the usage ledger and the routing history. */
    method RecordAttempt(id: TaskId, attempt: Attempt)
      modifies this`usage, this`history
      ensures usage == old(usage) + [RecordOf(id, attempt)]
      ensures history == old(history) + [OutcomeOf(RecordOf(id, attempt))]
    {
      usage := usage + [RecordOf(id, attempt)];
      history := history + [OutcomeOf(RecordOf(id, attempt))];
    }

    /** One pass: check the budget, route, execute, record. */
    method Try(graph: TaskGraph, id: TaskId, abandoned: seq<Target>) returns (step: Step)
      requires graph.Valid() && id in graph.tasks
      modifies this`usage, this`history, graph`tasks
      ensures graph.Valid()
      ensures step == TryOnce(env, cap, id, |old(graph.tasks)[id].attempts|, abandoned)
      ensures graph.tasks == old(graph.tasks)[id := RowAfterStep(old(graph.tasks)[id], step)]
      ensures usage == old(usage) + RecordsOf(id, AttemptsOf(step))
      ensures history == old(history) + OutcomesOf(RecordsOf(id, AttemptsOf(step)))
    {
      var task := graph.tasks[id];
      var n := |task.attempts|;
      var route := if n < cap then env.route(id, n, abandoned) else None;
      if route.None? {
        graph.Put(task.(status := Failed));
        return Stopped(if n < cap then Unroutable else OutOfBudget);
      }
      var reply := env.reply(id, n, route.value);
      var attempt := AttemptOf(route.value, reply);
      RecordAttempt(id, attempt);
      task := task.(status := Running, target := route, attempts := task.attempts + [attempt]);
      if attempt.success {
        graph.Put(task.(status := Completed, artifacts := task.artifacts + reply.changed));
        step := Won(attempt, reply.changed);
      } else {
        graph.Put(task);
        step := Lost(attempt);
      }
    }

    /** One turn of the loop: try once, and react to a failure. */
    method Turn(graph: TaskGraph, id: TaskId, abandoned: seq<Target>, onTarget: nat)
      returns (over: Option<End>, abandoned': seq<Target>, onTarget': nat,
               ghost spent: seq<Attempt>, ghost changed: seq<string>)
      requires graph.Valid() && id in graph.tasks
      modifies this`usage, this`history, graph`tasks
      ensures graph.Valid() && id in graph.tasks
      ensures graph.tasks == old(graph.tasks)[id := graph.tasks[id]]
      ensures graph.tasks[id] == Underway(old(graph.tasks)[id], graph.tasks[id], spent, changed)
      ensures usage == old(usage) + RecordsOf(id, spent)
      ensures history == old(history) + OutcomesOf(RecordsOf(id, spent))
      ensures TurnTaken(env, cap, old(graph.tasks)[id], graph.tasks[id], abandoned, onTarget,
                        over, abandoned', onTarget', spent, changed)
    {
      ghost var before := graph.tasks[id];
      var n := |graph.tasks[id].attempts|;
      CourseUnfolds(env, cap, id, n, abandoned, onTarget, before.target);
      UnderwayStep(before, TryOnce(env, cap, id, n, abandoned));
      hide CourseFrom;
      hide TryOnce;
      hide RecordsOf;
      hide OutcomesOf;
      var step := Try(graph, id, abandoned);
      abandoned', onTarget', spent := abandoned, onTarget + 1, AttemptsOf(step);
      changed := if step.Won? then step.changed else [];
      over := match step case Stopped(end) => Some(end) case Won(_, _) => Some(Done) case Lost(_) => None;
      if step.Lost? {
        var target := step.attempt.target;
        var alternatives := env.probe(id, n + 1, abandoned + [target]);
        match env.decide(id, n + 1, onTarget', alternatives) {
          case RetrySameTarget =>
          case Reroute =>
            onTarget' := 0;
            abandoned' := abandoned + [target];
          case AskPlanner(oversized) =>
            over := Some(AskedPlanner(oversized));
          case GiveUp =>
            graph.Put(graph.tasks[id].(status := Failed));
            over := Some(GaveUp);
        }
      }
    }

    /** Route, execute and react until the course of a task is over. */
    method Pursue(graph: TaskGraph, id: TaskId) returns (end: End)
      requires graph.Valid() && id in graph.tasks
      modifies this`usage, this`history, graph`tasks
      ensures graph.Valid()
      ensures var row := old(graph.tasks)[id];
              var c := RowCourse(env, cap, row);
              && end == c.end
              && graph.tasks == old(graph.tasks)[id := RowAfter(row, c)]
              && usage == old(usage) + RecordsOf(id, c.attempts)
              && history == old(history) + OutcomesOf(RecordsOf(id, c.attempts))
      ensures RowExplained(env, cap, old(graph.tasks)[id], graph.tasks[id], end)
    {
      hide CourseSoFar;
      hide TurnTaken;
      hide Underway;
      hide RecordsOf;
      hide OutcomesOf;
      hide RowCourse;
      hide RowAfter;
      hide RowExplained;
      ghost var row := graph.tasks[id];
      ghost var c := RowCourse(env, cap, row);
      ghost var spent: seq<Attempt> := [];
      ghost var changed: seq<string> := [];
      var abandoned: seq<Target> := [];
      var onTarget := 0;
      var over: Option<End> := None;
      CourseStarts(env, cap, row);

      while over.None?
        invariant graph.Valid() && id in graph.tasks
        invariant graph.tasks == old(graph.tasks)[id := graph.tasks[id]]
        invariant CourseSoFar(env, cap, row, c, graph.tasks[id], abandoned, onTarget, over, spent, changed)
        invariant usage == old(usage) + RecordsOf(id, spent)
        invariant history == old(history) + OutcomesOf(RecordsOf(id, spent))
        decreases over.None?, cap - (|row.attempts| + |spent|)
      {
        ghost var before := graph.tasks[id];
        ghost var more, added;
        ghost var abandoned0, onTarget0 := abandoned, onTarget;
        over, abandoned, onTarget, more, added := Turn(graph, id, abandoned, onTarget);
        TurnAdds(env, cap, row, c, before, graph.tasks[id], abandoned0, onTarget0, over, abandoned, onTarget,
                 spent, changed, more, added);
        LedgerGrows(id, spent, more);
        spent, changed := spent + more, added;
      }
      CourseEnds(env, cap, row, c, graph.tasks[id], abandoned, onTarget, over, spent, changed);
      end := over.value;
      RowIsExplained(env, cap, row);
    }

    /** Act on the end of a course: a task whose prompt was too large is split, if the planner
        agrees, and then counts as dealt with. */
    method Conclude(graph: TaskGraph, id: TaskId, end: End, ghost rows: Rows, ghost c: Course)
      returns (r: TaskResult)
      requires graph.Valid() && Fresh(graph.tasks, next) && end == c.end
      requires id in rows && rows[id].id == id && graph.tasks == rows[id := RowAfter(rows[id], c)]
      modifies this`next, graph
      ensures graph.Valid()
      ensures TaskExecuted(rows, old(graph.order), rows[id], c, old(next), r, graph.tasks, graph.order, next)
    {
      hide WellFormed;
      hide SplitRows;
      hide Sound;
      if end.AskedPlanner? {
        assert EdgesOf(graph.tasks) == EdgesOf(rows);
        var outcome, revised := Split(graph, graph.tasks[id], end.oversized, next);
        match outcome {
          case Revised =>
            graph.tasks, graph.order := revised.tasks, revised.order;
            next := next + 2;
            r := Ok(true);
          case Rejected(_) =>
            next := next + 2;
            r := Err;
          case Refused =>
            graph.Put(graph.tasks[id].(status := Failed));
            r := Ok(false);
        }
      } else {
        r := Ok(end.Done?);
      }
    }

    /** Run one task until it is settled, on a graph of its own. */
    method ExecuteTask(graph: TaskGraph, id: TaskId) returns (r: TaskResult)
      requires graph.Valid() && Fresh(graph.tasks, next)
      modifies this`usage, this`history, this`next, graph
      ensures graph.Valid()
      ensures id !in old(graph.tasks) ==>
                && r == Ok(false) && graph.tasks == old(graph.tasks) && graph.order == old(graph.order)
                && usage == old(usage) && history == old(history) && next == old(next)
      ensures id in old(graph.tasks) ==>
                var row := old(graph.tasks)[id];
                var c := RowCourse(env, cap, row);
                && usage == old(usage) + RecordsOf(id, c.attempts)
                && history == old(history) + OutcomesOf(RecordsOf(id, c.attempts))
                && TaskExecuted(old(graph.tasks), old(graph.order), row, c, old(next),
                                r, graph.tasks, graph.order, next)
    {
      if id !in graph.tasks {
        return Ok(false);
      }
      ghost var rows := graph.tasks;
      var end := Pursue(graph, id);
      r := Conclude(graph, id, end, rows, RowCourse(env, cap, rows[id]));
    }

    /** Bring an isolated task's work back; work that cannot land fails the task. */
    method SettleIsolated(graph: TaskGraph, id: TaskId, r: TaskResult) returns (settled: TaskResult)
      requires graph.Valid() && id in graph.tasks
      modifies graph`tasks
      ensures graph.Valid()
      ensures var landing := env.landing(id);
              if r != Ok(true) then settled == r && graph.tasks == old(graph.tasks)
              else
                && settled == Ok(!landing.Conflicting?)
                && graph.tasks == old(graph.tasks)[id := Landed(old(graph.tasks)[id], landing)]
    {
      settled := r;
      if r == Ok(true) {
        match env.landing(id) {
          case InPlace =>
            graph.Put(graph.tasks[id]);
          case Applied(changed) =>
            graph.Put(graph.tasks[id].(artifacts := AddMissing(graph.tasks[id].artifacts, changed)));
          case Conflicting =>
            graph.Put(graph.tasks[id].(status := Failed));
            settled := Ok(false);
        }
      }
    }

    /** Run one member of a wave on a copy of the plan. */
    method RunMember(graph: TaskGraph, id: TaskId) returns (res: WaveResult)
      requires graph.Valid() && Fresh(graph.tasks, next) && id in graph.tasks
      requires Sound(EdgesOf(graph.tasks))
      modifies this`usage, this`history, this`next
      ensures res.id == id && Ran(env, cap, graph.tasks, graph.order, res, old(next))
      ensures var row := graph.tasks[id];
              var c := RowCourse(env, cap, row);
              && next == (if Splits(row, c) then old(next) + 2 else old(next))
              && usage == old(usage) + RecordsOf(id, c.attempts)
              && history == old(history) + OutcomesOf(RecordsOf(id, c.attempts))
    {
      hide Sound;
      hide CourseOf;
      hide RecordsOf;
      hide OutcomesOf;
      var copy := new TaskGraph.Clone(graph);
      var r := ExecuteTask(copy, id);
      ghost var executed, order, next' := copy.tasks, copy.order, next;
      ExecutedKeepsRow(env, graph.tasks, graph.order, id, RowCourse(env, cap, graph.tasks[id]), old(next), r,
                       executed, order, next');
      r := SettleIsolated(copy, id, r);
      res := WaveResult(id, copy.tasks, copy.order, r);
    }

    /** Narrow a ready set to those that may run together, claiming what they will write. */
    method AdmitConcurrently(graph: TaskGraph, ready: seq<TaskId>) returns (admitted: seq<TaskId>)
      requires graph.Valid() && ownership.Valid() && NoRepeats(ready)
      modifies ownership
      ensures ownership.Valid()
      ensures NoRepeats(admitted) && forall t :: t in admitted ==> t in ready && t in graph.tasks
      ensures HoldsItsPaths(env, graph.tasks, ownership.claims, admitted) && WriteApart(env, graph.tasks, admitted)
      ensures WithoutAll(ownership.claims, admitted) == WithoutAll(old(ownership.claims), admitted)
      ensures admitted != [] <==> SomeCanGo(env, graph.tasks, old(ownership.claims), ready)
      ensures FreeAdmitted(env, graph.tasks, ready, admitted)
      ensures admitted == [] ==> ownership.claims == old(ownership.claims)
    {
      hide FreeAdmitted;
      hide WriteApart;
      admitted := [];
      NobodyFree(env, graph.tasks);
      for i := 0 to |ready|
        invariant ownership.Valid()
        invariant NoRepeats(admitted) && forall t :: t in admitted ==> t in ready[..i] && t in graph.tasks
        invariant HoldsItsPaths(env, graph.tasks, ownership.claims, admitted)
        invariant WithoutAll(ownership.claims, admitted) == WithoutAll(old(ownership.claims), admitted)
        invariant admitted == [] ==> ownership.claims == old(ownership.claims)
        invariant FreeAdmitted(env, graph.tasks, ready[..i], admitted)
        invariant admitted != [] <==> exists j :: 0 <= j < i && CanGo(env, graph.tasks, old(ownership.claims), ready[j])
      {
        var id := ready[i];
        ghost var before := admitted;
        if id in graph.tasks {
          assert id !in admitted;
          WithoutMore(ownership.claims, old(ownership.claims), admitted, id);
          if graph.tasks[id].spec.risk.ReadOnly? {
            admitted := admitted + [id];
          } else {
            ghost var claims := ownership.claims;
            var conflict := ownership.Claim(id, WritesOf(env, graph.tasks, id));
            if conflict.None? {
              AdmitKeepsPaths(env, graph.tasks, claims, admitted, id);
              admitted := admitted + [id];
            }
          }
        }
        OneMoreFree(env, graph.tasks, ready, i, before, admitted);
      }
      assert ready[..|ready|] == ready;
      WaveWritesApart(env, graph.tasks, ownership.claims, admitted);
    }

    /** Run every member of a wave, each on its own copy of the plan. */
    method RunWave(graph: TaskGraph, wave: seq<TaskId>, ghost since: Since)
      returns (results: seq<WaveResult>, ghost serials: seq<nat>)
      requires graph.Valid() && Fresh(graph.tasks, next) && Sound(EdgesOf(graph.tasks))
      requires NoRepeats(wave) && forall t :: t in wave ==> t in graph.tasks && graph.tasks[t].attempts == []
      requires InStep(since, usage, history) && Booked(Entries(since, usage), graph.tasks)
      modifies this`usage, this`history, this`next
      ensures InStep(since, usage, history) && next >= old(next)
      ensures WaveSoFar(env, cap, graph.tasks, graph.order, old(next), next, wave, |wave|, results, serials,
                        Entries(since, usage))
      ensures wave == [] ==> usage == old(usage) && history == old(history) && next == old(next)
      ensures |wave| == 1 ==> serials == [old(next)]
                              && next == if SplitsNow(env, cap, graph.tasks, wave[0]) then old(next) + 2 else old(next)
    {
      hide *;
      results, serials := [], [];
      WaveStarts(env, cap, graph.tasks, graph.order, next, wave, Entries(since, usage));
      for i := 0 to |wave|
        invariant InStep(since, usage, history) && next >= old(next)
        invariant WaveSoFar(env, cap, graph.tasks, graph.order, old(next), next, wave, i, results, serials,
                            Entries(since, usage))
        invariant i == 0 ==> usage == old(usage) && history == old(history) && next == old(next) && serials == []
        invariant i == 1 ==> serials == [old(next)]
                             && next == if SplitsNow(env, cap, graph.tasks, wave[0]) then old(next) + 2 else old(next)
      {
        ghost var booked, told, serial := usage, history, next;
        FreshLater(graph.tasks, old(next), next);
        ghost var c := RowCourse(env, cap, graph.tasks[wave[i]]);
        SplitsNowIs(env, cap, graph.tasks, wave[i]);
        var res := RunMember(graph, wave[i]);
        StaysInStep(since, booked, told, RecordsOf(wave[i], c.attempts));
        WaveGrows(env, cap, graph.tasks, graph.order, old(next), serial, next, wave, i, results, serials,
                  Entries(since, booked), res, Entries(since, usage));
        results, serials := results + [res], serials + [serial];
      }
    }

    /** Fold one result back: its own row only, unless it revised the plan and ran alone. */
    method FoldResult(graph: TaskGraph, res: WaveResult, alone: bool)
      requires graph.Valid() && ownership.Valid()
      requires res.id in graph.tasks && res.id in res.rows && res.rows[res.id].id == res.id
      requires WellFormed(FoldRows(graph.tasks, res, alone), FoldOrder(graph.tasks, graph.order, res, alone))
      modifies graph, ownership
      ensures graph.Valid() && ownership.Valid()
      ensures ownership.claims == Without(old(ownership.claims), res.id)
      ensures graph.tasks == FoldRows(old(graph.tasks), res, alone)
      ensures graph.order == FoldOrder(old(graph.tasks), old(graph.order), res, alone)
    {
      hide IsReady;
      hide DoomedSet;
      hide SkipRows;
      ownership.Release(res.id);
      ghost var rows := graph.tasks;
      var size := |graph.tasks|;
      graph.Put(res.rows[res.id]);
      if |res.rows| != size && alone {
        graph.tasks, graph.order := res.rows, res.order;
      } else if res.result != Ok(true) {
        graph.Put(graph.tasks[res.id].(status := Failed));
        var skipped := graph.CascadeSkip(res.id);
      }
    }

    /** Fold the results of a wave back, one after the other. */
    method FoldBack(graph: TaskGraph, results: seq<WaveResult>, ghost serials: seq<nat>, ghost original: set<TaskId>,
                    ghost replaced: set<TaskId>, ghost honoured: set<TaskId>, ghost booked: seq<UsageRecord>,
                    ghost rows0: Rows, ghost done: seq<TaskId>, ghost decided: bool)
      returns (ghost replaced': set<TaskId>, ghost honoured': set<TaskId>)
      requires graph.Valid() && ownership.Valid()
      requires FoldSoFar(env, cap, graph.tasks, graph.order, next, original, replaced, honoured,
                         graph.tasks, graph.order, honoured, results, serials, 0, booked)
      requires Lived(env, cap, rows0, graph.tasks, replaced, done, decided)
      requires decided ==> |results| <= 1 || NoneConflict(env, cap, rows0)
      modifies graph, ownership
      ensures graph.Valid() && ownership.Valid()
      ensures ownership.claims == WithoutAll(old(ownership.claims), ResultIds(results))
      ensures replaced <= replaced'
      ensures FoldSoFar(env, cap, graph.tasks, graph.order, next, original, replaced', honoured',
                        old(graph.tasks), old(graph.order), honoured, results, serials, |results|, booked)
      ensures Lived(env, cap, rows0, graph.tasks, replaced', done + ResultIds(results), decided)
      ensures results == [] ==>
                graph.tasks == old(graph.tasks) && graph.order == old(graph.order) && replaced' == replaced
      ensures |results| > 1 ==> PartsLost(env, cap, old(graph.tasks), graph.tasks, ResultIds(results))
      ensures |results| == 1 == |serials| ==>
                Moved(env, cap, old(graph.tasks), replaced, results[0].id, serials[0], true, graph.tasks, replaced')
    {
      hide *;
      ghost var before, order0 := graph.tasks, graph.order;
      replaced', honoured' := replaced, honoured;
      var alone := |results| == 1;
      NothingReleased(ownership.claims, results);
      NoIdsYet(results, done);
      NothingLost(env, cap, graph.tasks, results);
      for k := 0 to |results|
        invariant graph.Valid() && ownership.Valid()
        invariant ownership.claims == WithoutAll(old(ownership.claims), ResultIds(results[..k]))
        invariant replaced <= replaced'
        invariant FoldSoFar(env, cap, graph.tasks, graph.order, next, original, replaced', honoured',
                            before, order0, honoured, results, serials, k, booked)
        invariant Lived(env, cap, rows0, graph.tasks, replaced', done + ResultIds(results[..k]), decided)
        invariant k == 0 ==> graph.tasks == before && graph.order == order0 && replaced' == replaced
        invariant |results| > 1 ==> PartsLost(env, cap, before, graph.tasks, ResultIds(results[..k]))
        invariant k == 1 && |results| == 1 == |serials| ==>
                    Moved(env, cap, before, replaced, results[0].id, serials[0], true, graph.tasks, replaced')
      {
        ghost var rows, order := graph.tasks, graph.order;
        ghost var r, h := FoldAdvances(env, cap, rows, order, next, original, replaced', honoured',
                                       before, order0, honoured, results, serials, k, booked);
        FoldLives(env, cap, rows0, rows, order, next, original, replaced', honoured', before, order0, honoured,
                  results, serials, k, booked, done + ResultIds(results[..k]), decided, r);
        FoldResult(graph, results[k], alone);
        if |results| > 1 {
          OneMoreLost(env, cap, before, rows, graph.tasks, results, k, replaced', serials[k], r);
        }
        OneMoreReleased(old(ownership.claims), results, k);
        OneMoreId(results, k, done);
        replaced', honoured' := r, h;
      }
      assert results[..|results|] == results;
    }

    /** What a dropped claims guard does: release whatever the wave still holds. */
    method DropClaims(wave: seq<TaskId>)
      requires ownership.Valid()
      modifies ownership
      ensures ownership.Valid() && ownership.claims == WithoutAll(old(ownership.claims), wave)
    {
      NoClaimsDropped(ownership.claims, wave);
      for i := 0 to |wave|
        invariant ownership.Valid() && ownership.claims == WithoutAll(old(ownership.claims), wave[..i])
      {
        ownership.Release(wave[i]);
        OneMoreDropped(old(ownership.claims), wave, i);
      }
      assert wave[..|wave|] == wave;
    }

    /** One pass: admit a wave of ready tasks, run it, fold it back. The wave is empty exactly
        when none of the tasks the limit lets through could go alone; then nothing changes. */
    method RunPass(graph: TaskGraph, ghost since: Since, ghost original: set<TaskId>,
                   ghost replaced: set<TaskId>, ghost honoured: set<TaskId>,
                   ghost rows0: Rows, ghost done: seq<TaskId>, ghost decided: bool)
      returns (ran: bool, ghost wave: seq<TaskId>, ghost replaced': set<TaskId>, ghost honoured': set<TaskId>)
      requires graph.Valid() && ownership.Valid() && parallelism >= 1
      requires Session(env, cap, graph.tasks, graph.order, next, original, replaced, honoured,
                       since, usage, history)
      requires Lived(env, cap, rows0, graph.tasks, replaced, done, decided)
      requires decided ==> Decided(env, cap, rows0, parallelism)
      modifies this`usage, this`history, this`next, graph, ownership
      ensures graph.Valid() && ownership.Valid()
      ensures Session(env, cap, graph.tasks, graph.order, next, original, replaced', honoured',
                      since, usage, history)
      ensures Lived(env, cap, rows0, graph.tasks, replaced', done + wave, decided)
      ensures forall t :: t in wave ==> IsReady(EdgesOf(old(graph.tasks)), BoardOf(old(graph.tasks)), t)
      ensures replaced <= replaced' && honoured <= honoured' && old(graph.tasks).Keys <= graph.tasks.Keys
      ensures honoured' == honoured ==> EdgesOf(graph.tasks) == EdgesOf(old(graph.tasks))
      ensures ownership.claims == WithoutAll(old(ownership.claims), wave)
      ensures forall t :: t in wave ==> t in graph.tasks
      ensures ran <==> Frontier(old(graph.tasks), old(graph.order)) != []
      ensures !ran ==> wave == [] && NothingReady(graph.tasks)
      ensures wave != [] <==> SomeCanGo(env, old(graph.tasks), old(ownership.claims),
                                        Shortlist(old(graph.tasks), old(graph.order), parallelism))
      ensures wave == [] ==>
                && graph.tasks == old(graph.tasks) && graph.order == old(graph.order) && replaced' == replaced
                && usage == old(usage) && history == old(history) && next == old(next)
                && ownership.claims == old(ownership.claims)
      ensures FreeAdmitted(env, old(graph.tasks), Shortlist(old(graph.tasks), old(graph.order), parallelism), wave)
      ensures |wave| > 1 ==> PartsLost(env, cap, old(graph.tasks), graph.tasks, wave)
      ensures WriteApart(env, old(graph.tasks), wave)
      ensures Open(graph.tasks) + 2 * |honoured| + |wave| <= Open(old(graph.tasks)) + 2 * |honoured'|
      ensures parallelism == 1 && wave != [] ==>
                ToRun(env, cap, rows0, graph.tasks, next) + 1 == ToRun(env, cap, rows0, old(graph.tasks), old(next))
    {
      hide *;
      wave, replaced', honoured' := [], replaced, honoured;
      NoClaimsReleased(ownership.claims);
      ghost var rows, order, from, claims0 := graph.tasks, graph.order, next, ownership.claims;
      SessionFacts(env, cap, rows, order, next, original, replaced, honoured, since, usage, history);
      NothingAppended(done);
      var ready := graph.ReadyTasks();
      FrontierIsExact(graph.tasks, graph.order);
      ShortlistFacts(rows, order, parallelism);
      if |ready| > parallelism {
        ready := ready[..parallelism];
      }
      if ready == [] {
        EmptyFrontier(graph.tasks, graph.order);
        NobodyCanGo(env, rows, claims0);
        NobodyFree(env, rows);
        NobodyWrites(env, rows);
        return false, wave, replaced', honoured';
      }
      var admitted := AdmitConcurrently(graph, ready);
      AdmittedFacts(env, cap, rows, order, next, original, replaced, honoured, ready, admitted);
      AdmittedFit(ready, admitted);
      var results, serials := RunWave(graph, admitted, since);
      WaveBegins(env, cap, rows, order, from, next, original, replaced, honoured, admitted, results, serials,
                 Entries(since, usage));
      IdsCount(results, admitted);
      DecidedFor(env, cap, rows0, parallelism, |results|, decided);
      ghost var claims := ownership.claims;
      replaced', honoured' := FoldBack(graph, results, serials, original, replaced, honoured, Entries(since, usage),
                                       rows0, done, decided);
      DropClaims(admitted);
      DroppedTwice(claims, admitted);
      WaveDone(env, cap, graph.tasks, graph.order, next, original, replaced', honoured', rows, order, honoured,
               admitted, results, serials, since, usage, history);
      if |admitted| == 1 {
        AloneIsOneLess(env, cap, rows0, rows, order, from, original, replaced, honoured, done, decided, admitted[0],
                       graph.tasks, replaced', next);
      }
      return true, admitted, replaced', honoured';
    }

    /** Walk the plan wave by wave until every task is terminal, nothing can start any more, or
        the pass bound is reached.

        Whatever happens, the plan stays sound, its books balance, other claims are left alone,
        and tasks run at most once, each after everything it waits for. If at the start nothing
        admissible is ready, every pass comes to nothing, up to the bound.

        Once nothing is ready any more, the tasks still unfinished are exactly those left behind a
        split, which the plan and the oracle determine (whenever splits do not hang on company).
        If nobody else holds a path some task may write, that point is reached unless the plan grew
        beyond 2n + 4 tasks; and one task at a time it is reached, after exactly `ToRun` passes, if
        and only if these are at most 2n + 4. */
    method ExecuteGraph(graph: TaskGraph)
      returns (passes: nat, ghost ran: seq<TaskId>, ghost replaced: set<TaskId>, ghost honoured: set<TaskId>)
      requires graph.Valid() && ownership.Valid() && parallelism >= 1
      requires NewPlan(graph.tasks, next)
      modifies this`usage, this`history, this`next, graph, ownership
      ensures graph.Valid() && ownership.Valid()
      ensures Session(env, cap, graph.tasks, graph.order, next, old(graph.tasks).Keys, replaced, honoured,
                      Since(|old(usage)|, |old(history)|), usage, history)
      ensures Sum(UsagesOf(Entries(Since(|old(usage)|, |old(history)|), usage))) == PlanTotal(graph.tasks, graph.order)
      ensures |graph.tasks| == |old(graph.tasks)| + 2 * |honoured| <= 3 * |old(graph.tasks)|
      ensures ownership.claims == WithoutAll(old(ownership.claims), ran) && forall t :: t in ran ==> t in graph.tasks
      ensures RanInOrder(EdgesOf(graph.tasks), BoardOf(graph.tasks), ran)
      ensures passes <= 2 * |old(graph.tasks)| + 4
      ensures ran != [] <==> SomeCanGo(env, old(graph.tasks), old(ownership.claims),
                                       Shortlist(old(graph.tasks), old(graph.order), parallelism))
      ensures !SomeCanGo(env, old(graph.tasks), old(ownership.claims),
                         Shortlist(old(graph.tasks), old(graph.order), parallelism)) ==>
                && passes == (if Frontier(old(graph.tasks), old(graph.order)) == [] then 0
                              else 2 * |old(graph.tasks)| + 4)
                && graph.tasks == old(graph.tasks) && graph.order == old(graph.order)
                && usage == old(usage) && history == old(history) && ownership.claims == old(ownership.claims)
      ensures NothingReady(graph.tasks) ==>
                var left := LeftBehind(EdgesOf(old(graph.tasks)), Good(env, cap), Over(env, cap, old(graph.tasks)));
                && Unfinished(BoardOf(graph.tasks)) <= left
                && (Decided(env, cap, old(graph.tasks), parallelism) ==> Unfinished(BoardOf(graph.tasks)) == left)
      ensures Unhindered(env, old(ownership.claims)) ==>
                && passes + Open(graph.tasks) <= |old(graph.tasks)| + 2 * |honoured|
                && (NothingReady(graph.tasks) || |graph.tasks| > 2 * |old(graph.tasks)| + 4)
      ensures Unhindered(env, old(ownership.claims)) && parallelism == 1 ==>
                var needed := ToRun(env, cap, old(graph.tasks), old(graph.tasks), old(next));
                && passes == Min(needed, 2 * |old(graph.tasks)| + 4)
                && (NothingReady(graph.tasks) <==> needed <= 2 * |old(graph.tasks)| + 4)
      ensures Unhindered(env, old(ownership.claims)) && NoneAwaitedOverflows(env, cap, old(graph.tasks)) ==>
                Complete(BoardOf(graph.tasks)) || |graph.tasks| > 2 * |old(graph.tasks)| + 4
      ensures Unhindered(env, old(ownership.claims)) && NoneOverflows(env, cap, old(graph.tasks)) ==>
                && passes <= |old(graph.tasks)|
                && Complete(BoardOf(graph.tasks))
                && BoardOf(graph.tasks) == FinalBoard(EdgesOf(old(graph.tasks)), Good(env, cap))
    {
      hide *;
      var maxPasses := |graph.tasks| * 2 + 4;
      ValidIsWellFormed(graph);
      ghost var rows0, order0, next0, claims0 := graph.tasks, graph.order, next, ownership.claims;
      ghost var since, decided := Since(|usage|, |history|), Decided(env, cap, graph.tasks, parallelism);
      ghost var open := SomeCanGo(env, rows0, claims0, Shortlist(rows0, order0, parallelism));
      passes, ran, replaced, honoured := 0, [], {}, {};
      SessionBegins(env, cap, graph.tasks, graph.order, next, usage, history);
      NewPlanLives(env, cap, rows0, next, decided);
      NoClaimsReleased(claims0);
      var stopped := false;

      while passes < maxPasses && !stopped
        invariant passes <= maxPasses
        invariant graph.Valid() && ownership.Valid()
        invariant Session(env, cap, graph.tasks, graph.order, next, rows0.Keys, replaced, honoured,
                          since, usage, history)
        invariant Lived(env, cap, rows0, graph.tasks, replaced, ran, decided)
        invariant rows0.Keys <= graph.tasks.Keys
        invariant honoured == {} ==> EdgesOf(graph.tasks) == EdgesOf(rows0)
        invariant ownership.claims == WithoutAll(claims0, ran) && forall t :: t in ran ==> t in graph.tasks
        invariant ran == [] ==> graph.tasks == rows0 && graph.order == order0 && ownership.claims == claims0
        invariant open && (passes > 0 || stopped) ==> ran != []
        invariant !open ==>
                    && ran == [] && graph.tasks == rows0 && graph.order == order0 && ownership.claims == claims0
                    && usage == old(usage) && history == old(history)
                    && (if stopped then passes == 0 && Frontier(rows0, order0) == []
                        else passes > 0 ==> Frontier(rows0, order0) != [])
        invariant Unhindered(env, claims0) ==> passes + Open(graph.tasks) <= |rows0| + 2 * |honoured|
        invariant Unhindered(env, claims0) && parallelism == 1 ==>
                    passes + ToRun(env, cap, rows0, graph.tasks, next) == ToRun(env, cap, rows0, rows0, next0)
        invariant stopped ==> NothingReady(graph.tasks)
        decreases maxPasses - passes, !stopped
      {
        SessionFacts(env, cap, graph.tasks, graph.order, next, rows0.Keys, replaced, honoured, since, usage, history);
        if graph.IsComplete() {
          CompleteMeansIdle(graph.tasks);
          IdleFrontier(graph.tasks, graph.order);
          EmptyShortlist(env, graph.tasks, graph.order, parallelism, ownership.claims);
          stopped := true;
        } else {
          ghost var before, claims, wave, r, h := graph.tasks, ownership.claims, ran, replaced, honoured;
          var went;
          PassCanGo(env, graph.tasks, graph.order, parallelism, claims0, ran);
          went, wave, r, h := RunPass(graph, since, rows0.Keys, replaced, honoured, rows0, ran, decided);
          ReleasedMore(claims0, ran, wave);
          ran, replaced, honoured := ran + wave, r, h;
          if went {
            passes := passes + 1;
          } else {
            stopped := true;
          }
        }
      }
      SessionFacts(env, cap, graph.tasks, graph.order, next, rows0.Keys, replaced, honoured, since, usage, history);
      ReplacedFacts(env, cap, graph.tasks, graph.order, next, rows0.Keys, replaced, honoured);
      RunEnds(rows0, graph.tasks, graph.order, honoured, Entries(since, usage));
      MinIs(ToRun(env, cap, rows0, rows0, next0), maxPasses);
      RunEndsInOrder(env, cap, rows0, graph.tasks, replaced, ran, decided);
      ToRunEnds(env, cap, rows0, graph.tasks, graph.order, next, rows0.Keys, replaced, honoured);
      if NothingReady(graph.tasks) {
        EndsLeft(env, cap, rows0, graph.tasks, graph.order, next, rows0.Keys, replaced, honoured, ran, decided);
      }
      if Unhindered(env, claims0) {
        if !stopped {
          BoundStops(env, cap, graph.tasks, graph.order, next, rows0.Keys, replaced, honoured, passes);
        }
        if NoneAwaitedOverflows(env, cap, rows0) && NothingReady(graph.tasks) {
          HarmlessEnds(env, cap, rows0, graph.tasks, next0);
        }
        if NoneOverflows(env, cap, rows0) {
          if NothingReady(graph.tasks) {
            StopsStalled(env, cap, graph.tasks, graph.order, next, rows0.Keys, replaced, honoured);
          }
          SameEdgesSameKeys(rows0, graph.tasks);
          NoneReplaced(env, cap, rows0, graph.tasks, replaced, honoured);
          NoReplanEnds(env, cap, rows0, graph.tasks, graph.order, next);
        }
      }
    }
  }

  /** A plan as a planner hands it over: sound, and nothing in it attempted yet. */
  ghost predicate NewPlan(rows: Rows, next: nat) {
    && Sound(EdgesOf(rows)) && Fresh(rows, next)
    && forall t :: t in rows ==> rows[t].status.Pending? && Untouched(rows[t])
  }

  ghost predicate NoneOverflows(env: Env, cap: nat, rows: Rows) {
    forall t :: t in rows ==> !Overflows(env, cap, t)
  }

  /** No task of the plan that somebody waits for is split. */
  ghost predicate NoneAwaitedOverflows(env: Env, cap: nat, rows: Rows) {
    forall t, d :: t in rows && d in rows[t].spec.dependencies ==> d !in Over(env, cap, rows)
  }

  function Min(a: nat, b: nat): nat {
    if a <= b then a else b
  }

  lemma MinIs(a: nat, b: nat)
    ensures Min(a, b) == if a <= b then a else b
  {
  }

  /** Every unfinished task waits, through unfinished tasks, for one that was taken out. */
  ghost predicate Stalled(rows: Rows, replaced: set<TaskId>) {
    forall t :: t in rows && !rows[t].status.Terminal() ==> Doomed(EdgesOf(rows), BoardOf(rows), replaced, t)
  }

  lemma ValidIsWellFormed(graph: TaskGraph)
    requires graph.Valid()
    ensures WellFormed(graph.tasks, graph.order)
  {
  }

  lemma SessionBegins(env: Env, cap: nat, rows: Rows, order: seq<TaskId>, next: nat,
                      usage: seq<UsageRecord>, history: seq<OutcomeRecord>)
    requires WellFormed(rows, order) && NewPlan(rows, next)
    ensures Session(env, cap, rows, order, next, rows.Keys, {}, {}, Since(|usage|, |history|), usage, history)
    ensures Open(rows) <= |rows|
  {
    hide Sound;
    FreshBoardIsSettling(EdgesOf(rows), Good(env, cap), BoardOf(rows));
    hide Settling;
    hide WellFormed;
    assert usage[|usage|..] == [] && history[|history|..] == [];
    forall t | t in rows
      ensures BookedFor([], t, rows[t].attempts)
    {
      assert Untouched(rows[t]);
    }
    CardinalityAtMost(Unfinished(BoardOf(rows)), rows.Keys);
    assert |rows.Keys| == |rows|;
  }

  lemma CompleteMeansIdle(rows: Rows)
    requires Complete(BoardOf(rows))
    ensures NothingReady(rows)
  {
  }

  lemma ReleasedMore(claims: Claims, ran: seq<TaskId>, wave: seq<TaskId>)
    ensures WithoutAll(WithoutAll(claims, ran), wave) == WithoutAll(claims, ran + wave)
    ensures forall t :: t in ran + wave <==> t in ran || t in wave
  {
  }

  lemma RunEnds(rows0: Rows, rows: Rows, order: seq<TaskId>, honoured: set<TaskId>, booked: seq<UsageRecord>)
    requires WellFormed(rows, order) && Booked(booked, rows)
    requires honoured <= rows0.Keys && |rows| == |rows0.Keys| + 2 * |honoured|
    ensures Sum(UsagesOf(booked)) == PlanTotal(rows, order)
    ensures |rows| == |rows0| + 2 * |honoured| <= 3 * |rows0|
  {
    BooksBalance(booked, rows, order);
    CardinalityAtMost(honoured, rows0.Keys);
    hide *;
    assert |rows0.Keys| == |rows0|;
  }

  /** Nothing ready: whatever is unfinished waits for a task that was taken out. */
  lemma StopsStalled(env: Env, cap: nat, rows: Rows, order: seq<TaskId>, next: nat, original: set<TaskId>,
                     replaced: set<TaskId>, honoured: set<TaskId>)
    requires UnderWay(env, cap, rows, order, next, original, replaced, honoured) && NothingReady(rows)
    ensures Stalled(rows, replaced)
  {
    hide UnderWay;
    hide Settling;
    hide IsReady;
    hide Doomed;
    UnderWayFacts(env, cap, rows, order, next, original, replaced, honoured);
    StalledBehindReplaced(EdgesOf(rows), Good(env, cap), replaced, BoardOf(rows));
    hide Sound;
    assert forall t :: t in rows ==> BoardOf(rows)[t] == rows[t].status;
  }

  /** The pass bound stops a run only when re-planning more than doubled the plan. */
  lemma BoundStops(env: Env, cap: nat, rows: Rows, order: seq<TaskId>, next: nat, original: set<TaskId>,
                   replaced: set<TaskId>, honoured: set<TaskId>, passes: nat)
    requires UnderWay(env, cap, rows, order, next, original, replaced, honoured)
    requires passes >= 2 * |original| + 4 && passes + Open(rows) <= |original| + 2 * |honoured|
    ensures |rows| > 2 * |original| + 4 || NothingReady(rows)
  {
    hide EdgesOf;
    UnderWayIsWellFormed(env, cap, rows, order, next, original, replaced, honoured);
    hide UnderWay;
    if |rows| <= 2 * |original| + 4 {
      assert Unfinished(BoardOf(rows)) == {};
      forall t | t in rows
        ensures rows[t].status.Terminal()
      {
        assert t !in Unfinished(BoardOf(rows));
      }
    }
  }

  lemma NewPlanLives(env: Env, cap: nat, rows: Rows, next: nat, decided: bool)
    requires NewPlan(rows, next)
    ensures Lived(env, cap, rows, rows, {}, [], decided)
  {
    assert Closed(EdgesOf(rows)) && Acyclic(EdgesOf(rows));
    hide Sound; hide Lived; hide Closed; hide Acyclic;
    LivedAtStart(env, cap, rows, decided);
  }

  lemma FrontierHead(rows: Rows, order: seq<TaskId>)
    requires WellFormed(rows, order) && Frontier(rows, order) != []
    ensures exists t :: IsReady(EdgesOf(rows), BoardOf(rows), t)
  {
    FrontierIsExact(rows, order);
    hide IsReady; hide Frontier;
    var t := Frontier(rows, order)[0];
    assert t in Frontier(rows, order);
  }

  lemma IdleFrontier(rows: Rows, order: seq<TaskId>)
    requires WellFormed(rows, order) && NothingReady(rows)
    ensures Frontier(rows, order) == []
  {
    if Frontier(rows, order) != [] {
      FrontierHead(rows, order);
    }
  }

  /** With nothing in the way, a pass that finds anything ready runs something. */
  lemma PassCanGo(env: Env, rows: Rows, order: seq<TaskId>, limit: nat, claims0: Claims, ran: seq<TaskId>)
    requires WellFormed(rows, order) && limit >= 1
    ensures Unhindered(env, claims0) && Frontier(rows, order) != [] ==>
              SomeCanGo(env, rows, WithoutAll(claims0, ran), Shortlist(rows, order, limit))
  {
    ShortlistFacts(rows, order, limit);
    var s := Shortlist(rows, order, limit);
    hide Unhindered; hide SomeCanGo; hide Shortlist; hide Frontier; hide WithoutAll;
    if Unhindered(env, claims0) && Frontier(rows, order) != [] {
      StaysUnhindered(env, claims0, ran);
      assert s[0] in s;
      UnhinderedCanGo(env, rows, WithoutAll(claims0, ran), s);
    }
  }

  lemma RunEndsInOrder(env: Env, cap: nat, rows0: Rows, rows: Rows, replaced: set<TaskId>, ran: seq<TaskId>,
                       decided: bool)
    requires Lived(env, cap, rows0, rows, replaced, ran, decided)
    ensures RanInOrder(EdgesOf(rows), BoardOf(rows), ran)
  {
    hide RanInOrder; hide LeftBehind; hide Good; hide Over; hide EdgesOf; hide BoardOf;
  }

  /** Nothing is ready exactly when there is nothing more to run. */
  lemma ToRunEnds(env: Env, cap: nat, rows0: Rows, rows: Rows, order: seq<TaskId>, next: nat, original: set<TaskId>,
                  replaced: set<TaskId>, honoured: set<TaskId>)
    requires UnderWay(env, cap, rows, order, next, original, replaced, honoured)
    ensures NothingReady(rows) <==> ToRun(env, cap, rows0, rows, next) == 0
  {
    UnderWayFacts(env, cap, rows, order, next, original, replaced, honoured);
    hide UnderWay; hide Settling; hide Closed; hide Acyclic; hide IsReady; hide Good; hide Over; hide Sound;
    var e, b, good := EdgesOf(rows), BoardOf(rows), Good(env, cap);
    if Alive(e, good, b) != {} {
      AliveMeansReady(e, good, replaced, b);
    }
    if t :| IsReady(e, b, t) {
      ReadyIsAlive(e, good, replaced, b, t);
    }
    hide Alive; hide EdgesOf; hide BoardOf;
  }

  /** Once nothing is ready, who is unfinished is left behind a split, and the other way round. */
  lemma EndsLeft(env: Env, cap: nat, rows0: Rows, rows: Rows, order: seq<TaskId>, next: nat, original: set<TaskId>,
                 replaced: set<TaskId>, honoured: set<TaskId>, ran: seq<TaskId>, decided: bool)
    requires UnderWay(env, cap, rows, order, next, original, replaced, honoured) && NothingReady(rows)
    requires Lived(env, cap, rows0, rows, replaced, ran, decided)
    ensures var left := LeftBehind(EdgesOf(rows0), Good(env, cap), Over(env, cap, rows0));
            && Unfinished(BoardOf(rows)) <= left
            && (decided ==> Unfinished(BoardOf(rows)) == left)
  {
    UnderWayFacts(env, cap, rows, order, next, original, replaced, honoured);
    hide UnderWay; hide Settling; hide Closed; hide Acyclic; hide IsReady; hide Good; hide Over; hide Sound;
    hide EdgesOf; hide BoardOf; hide RanInOrder; hide PartsFollow; hide Hopeless; hide LeftBehind; hide Unfinished;
    hide Overflows;
    UnfinishedAreLeft(EdgesOf(rows0), EdgesOf(rows), Good(env, cap), Over(env, cap, rows0), replaced, BoardOf(rows));
  }

  lemma HarmlessEnds(env: Env, cap: nat, rows0: Rows, rows: Rows, next0: nat)
    requires NewPlan(rows0, next0) && NoneAwaitedOverflows(env, cap, rows0)
    requires Unfinished(BoardOf(rows)) <= LeftBehind(EdgesOf(rows0), Good(env, cap), Over(env, cap, rows0))
    ensures Complete(BoardOf(rows))
  {
    assert Closed(EdgesOf(rows0)) && Acyclic(EdgesOf(rows0));
    hide Closed; hide Acyclic; hide Sound; hide Over; hide Good; hide LeftBehind;
    LeavesAreHarmless(EdgesOf(rows0), Good(env, cap), Over(env, cap, rows0));
    forall t | t in BoardOf(rows)
      ensures BoardOf(rows)[t].Terminal()
    {
      assert t !in Unfinished(BoardOf(rows));
    }
  }

  lemma ReplacedFacts(env: Env, cap: nat, rows: Rows, order: seq<TaskId>, next: nat, original: set<TaskId>,
                      replaced: set<TaskId>, honoured: set<TaskId>)
    requires UnderWay(env, cap, rows, order, next, original, replaced, honoured)
    ensures honoured <= original && honoured <= replaced <= rows.Keys && |rows| == |original| + 2 * |honoured|
    ensures forall t :: t in replaced ==> Overflows(env, cap, t)
  {
    hide Orderly; hide Sound; hide Overflows;
    assert EdgesOf(rows).Keys == rows.Keys;
  }

  lemma SameEdgesSameKeys(rows0: Rows, rows: Rows)
    ensures EdgesOf(rows) == EdgesOf(rows0) ==> rows.Keys == rows0.Keys
  {
    assert EdgesOf(rows).Keys == rows.Keys && EdgesOf(rows0).Keys == rows0.Keys;
  }

  lemma NoneReplaced(env: Env, cap: nat, rows0: Rows, rows: Rows, replaced: set<TaskId>, honoured: set<TaskId>)
    requires honoured <= rows0.Keys && honoured <= replaced <= rows.Keys
    requires NoneOverflows(env, cap, rows0) && forall t :: t in replaced ==> Overflows(env, cap, t)
    requires honoured == {} ==> rows.Keys == rows0.Keys
    ensures honoured == {} && replaced == {}
  {
    hide Overflows;
    assert forall t :: t in rows0 ==> t !in replaced && t !in honoured;
  }

  /** Without a re-planning the run ends complete, with the statuses the oracle dictates. */
  lemma NoReplanEnds(env: Env, cap: nat, rows0: Rows, rows: Rows, order: seq<TaskId>, next: nat)
    requires UnderWay(env, cap, rows, order, next, rows0.Keys, {}, {}) && EdgesOf(rows) == EdgesOf(rows0)
    requires Stalled(rows, {}) || |rows| > 2 * |rows0| + 4
    ensures Complete(BoardOf(rows)) && BoardOf(rows) == FinalBoard(EdgesOf(rows0), Good(env, cap))
  {
    UnderWayIsWellFormed(env, cap, rows, order, next, rows0.Keys, {}, {});
    UnderWayFacts(env, cap, rows, order, next, rows0.Keys, {}, {});
    hide UnderWay;
    hide Sound;
    hide Settling;
    assert |rows0.Keys| == |rows0|;
    forall t | t in rows
      ensures rows[t].status.Terminal()
    {
      assert !Doomed(EdgesOf(rows), BoardOf(rows), {}, t);
    }
    FinishedBoard(EdgesOf(rows), Good(env, cap), BoardOf(rows));
  }

  /** Where this session's entries start in the two ledgers. */
  datatype Since = Since(usage: nat, history: nat)

  ghost function Entries(since: Since, usage: seq<UsageRecord>): seq<UsageRecord> {
    if since.usage <= |usage| then usage[since.usage..] else []
  }

  /** The routing history has heard of exactly this session's ledger entries. */
  ghost predicate InStep(since: Since, usage: seq<UsageRecord>, history: seq<OutcomeRecord>) {
    && since.usage <= |usage| && since.history <= |history|
    && history[since.history..] == OutcomesOf(Entries(since, usage))
  }

  lemma StaysInStep(since: Since, usage: seq<UsageRecord>, history: seq<OutcomeRecord>, more: seq<UsageRecord>)
    requires InStep(since, usage, history)
    ensures InStep(since, usage + more, history + OutcomesOf(more))
    ensures Entries(since, usage + more) == Entries(since, usage) + more
  {
    assert (usage + more)[since.usage..] == usage[since.usage..] + more;
    OutcomesConcat(Entries(since, usage), more);
    var all := OutcomesOf(more);
    assert (history + all)[since.history..] == history[since.history..] + all;
  }

  /** A session in progress: the plan is under way and its attempts are booked. */
  ghost predicate Session(env: Env, cap: nat, rows: Rows, order: seq<TaskId>, next: nat, original: set<TaskId>,
                          replaced: set<TaskId>, honoured: set<TaskId>, since: Since,
                          usage: seq<UsageRecord>, history: seq<OutcomeRecord>)
  {
    && UnderWay(env, cap, rows, order, next, original, replaced, honoured)
    && InStep(since, usage, history)
    && Booked(Entries(since, usage), rows)
  }

  ghost predicate NothingReady(rows: Rows) {
    forall t :: !IsReady(EdgesOf(rows), BoardOf(rows), t)
  }

  lemma SessionFacts(env: Env, cap: nat, rows: Rows, order: seq<TaskId>, next: nat, original: set<TaskId>,
                     replaced: set<TaskId>, honoured: set<TaskId>, since: Since,
                     usage: seq<UsageRecord>, history: seq<OutcomeRecord>)
    requires Session(env, cap, rows, order, next, original, replaced, honoured, since, usage, history)
    ensures UnderWay(env, cap, rows, order, next, original, replaced, honoured)
    ensures InStep(since, usage, history) && Booked(Entries(since, usage), rows)
    ensures WellFormed(rows, order) && Fresh(rows, next) && Sound(EdgesOf(rows))
  {
    hide Sound;
    hide Settling;
  }

  lemma EmptyFrontier(rows: Rows, order: seq<TaskId>)
    requires WellFormed(rows, order) && Frontier(rows, order) == []
    ensures NothingReady(rows)
  {
    FrontierIsExact(rows, order);
    hide IsReady;
  }

  lemma AdmittedFacts(env: Env, cap: nat, rows: Rows, order: seq<TaskId>, next: nat, original: set<TaskId>,
                      replaced: set<TaskId>, honoured: set<TaskId>, ready: seq<TaskId>, admitted: seq<TaskId>)
    requires UnderWay(env, cap, rows, order, next, original, replaced, honoured)
    requires forall t :: t in ready ==> IsReady(EdgesOf(rows), BoardOf(rows), t)
    requires forall t :: t in admitted ==> t in ready
    ensures forall t :: t in admitted ==>
              t in rows && rows[t].attempts == [] && IsReady(EdgesOf(rows), BoardOf(rows), t)
    ensures ready != [] ==> ready[0] in rows
  {
    hide Sound;
    hide Settling;
    assert ready != [] ==> ready[0] in ready;
    forall t | t in admitted
      ensures rows[t].attempts == []
    {
      assert Startable(BoardOf(rows)[t]);
      assert Untouched(rows[t]);
    }
  }

  lemma WaveBegins(env: Env, cap: nat, rows: Rows, order: seq<TaskId>, from: nat, next: nat, original: set<TaskId>,
                   replaced: set<TaskId>, honoured: set<TaskId>, wave: seq<TaskId>,
                   results: seq<WaveResult>, serials: seq<nat>, booked: seq<UsageRecord>)
    requires UnderWay(env, cap, rows, order, from, original, replaced, honoured) && from <= next
    requires NoRepeats(wave) && forall t :: t in wave ==> t in rows && IsReady(EdgesOf(rows), BoardOf(rows), t)
    requires WaveSoFar(env, cap, rows, order, from, next, wave, |wave|, results, serials, booked)
    ensures FoldSoFar(env, cap, rows, order, next, original, replaced, honoured,
                      rows, order, honoured, results, serials, 0, booked)
    ensures ResultIds(results) == wave
  {
    hide Ran;
    hide RowCourse;
    hide IsReady;
    hide BookedExcept;
    assert wave[..|wave|] == wave;
    LaterUnderWay(env, cap, rows, order, from, next, original, replaced, honoured);
    UnderWayIsWellFormed(env, cap, rows, order, from, original, replaced, honoured);
    hide UnderWay;
    hide WellFormed;
    forall j | 0 <= j < |results|
      ensures Awaiting(env, cap, rows, order, next, rows, order, results[j], serials[j], |results| == 1)
    {
      assert ResultIds(results)[j] == results[j].id;
      assert Member(env, cap, rows, order, from, next, results[j], serials[j]);
      FreshLater(rows, from, serials[j]);
    }
  }

  lemma LaterUnderWay(env: Env, cap: nat, rows: Rows, order: seq<TaskId>, from: nat, next: nat, original: set<TaskId>,
                      replaced: set<TaskId>, honoured: set<TaskId>)
    requires UnderWay(env, cap, rows, order, from, original, replaced, honoured) && from <= next
    ensures UnderWay(env, cap, rows, order, next, original, replaced, honoured)
  {
    hide Sound;
    hide Settling;
    hide WellFormed;
  }

  lemma WaveDone(env: Env, cap: nat, rows: Rows, order: seq<TaskId>, next: nat, original: set<TaskId>,
                 replaced: set<TaskId>, honoured: set<TaskId>, rows0: Rows, order0: seq<TaskId>, honoured0: set<TaskId>,
                 wave: seq<TaskId>, results: seq<WaveResult>, serials: seq<nat>,
                 since: Since, usage: seq<UsageRecord>, history: seq<OutcomeRecord>)
    requires FoldSoFar(env, cap, rows, order, next, original, replaced, honoured, rows0, order0, honoured0,
                       results, serials, |results|, Entries(since, usage))
    requires InStep(since, usage, history) && ResultIds(results) == wave && forall t :: t in wave ==> t in rows0
    ensures Session(env, cap, rows, order, next, original, replaced, honoured, since, usage, history)
    ensures honoured0 <= honoured && rows0.Keys <= rows.Keys && forall t :: t in wave ==> t in rows
    ensures honoured == honoured0 ==> EdgesOf(rows) == EdgesOf(rows0)
    ensures Open(rows) + |wave| + 2 * |honoured0| <= Open(rows0) + 2 * |honoured|
  {
    hide UnderWay;
    hide EdgesOf;
    hide Open;
    BooksClose(Entries(since, usage), rows, results);
    hide BookedExcept;
  }

  lemma NoClaimsReleased(claims: Claims)
    ensures claims == WithoutAll(claims, [])
  {
  }

  lemma NoClaimsDropped(claims: Claims, wave: seq<TaskId>)
    ensures claims == WithoutAll(claims, wave[..0])
  {
  }

  lemma OneMoreDropped(claims: Claims, wave: seq<TaskId>, i: nat)
    requires i < |wave|
    ensures Without(WithoutAll(claims, wave[..i]), wave[i]) == WithoutAll(claims, wave[..i + 1])
  {
    assert wave[..i + 1] == wave[..i] + [wave[i]];
  }

  lemma DroppedTwice(claims: Claims, wave: seq<TaskId>)
    ensures WithoutAll(WithoutAll(claims, wave), wave) == WithoutAll(claims, wave)
  {
  }

  /** Where folding a wave back stands after `k` results. */
  ghost predicate FoldSoFar(env: Env, cap: nat, rows: Rows, order: seq<TaskId>, next: nat, original: set<TaskId>,
                            replaced: set<TaskId>, honoured: set<TaskId>,
                            rows0: Rows, order0: seq<TaskId>, honoured0: set<TaskId>,
                            results: seq<WaveResult>, serials: seq<nat>, k: nat, usage: seq<UsageRecord>)
  {
    && k <= |results| == |serials|
    && UnderWay(env, cap, rows, order, next, original, replaced, honoured)
    && NoRepeats(ResultIds(results))
    && BookedExcept(usage, rows, results, k)
    && (forall j :: k <= j < |results| ==>
          Awaiting(env, cap, rows, order, next, rows0, order0, results[j], serials[j], |results| == 1))
    && Open(rows) + k + 2 * |honoured0| <= Open(rows0) + 2 * |honoured|
    && rows0.Keys <= rows.Keys && honoured0 <= honoured
    && (honoured == honoured0 ==> EdgesOf(rows) == EdgesOf(rows0))
  }

  lemma NothingReleased(claims: Claims, results: seq<WaveResult>)
    ensures claims == WithoutAll(claims, ResultIds(results[..0]))
  {
  }

  lemma OneMoreReleased(claims: Claims, results: seq<WaveResult>, k: nat)
    requires k < |results|
    ensures Without(WithoutAll(claims, ResultIds(results[..k])), results[k].id)
         == WithoutAll(claims, ResultIds(results[..k + 1]))
  {
    assert ResultIds(results[..k + 1]) == ResultIds(results[..k]) + [results[k].id];
  }

  lemma AwaitingKept(env: Env, cap: nat, rows: Rows, after: Rows, order: seq<TaskId>, next: nat,
                    rows0: Rows, order0: seq<TaskId>, id: TaskId, other: WaveResult, n: nat)
    requires OthersReady(rows, after, id) && other.id != id
    requires Awaiting(env, cap, rows, order, next, rows0, order0, other, n, false)
    ensures Awaiting(env, cap, after, order, next, rows0, order0, other, n, false)
  {
    hide Ran;
    hide RowCourse;
    hide IsReady;
  }

  lemma AwaitingFacts(env: Env, cap: nat, rows: Rows, order: seq<TaskId>, next: nat, original: set<TaskId>,
                     replaced: set<TaskId>, honoured: set<TaskId>,
                     rows0: Rows, order0: seq<TaskId>, res: WaveResult, n: nat, alone: bool)
    requires UnderWay(env, cap, rows, order, next, original, replaced, honoured)
    requires Awaiting(env, cap, rows, order, next, rows0, order0, res, n, alone)
    ensures res.id in rows && res.id in res.rows && res.rows[res.id].id == res.id
    ensures !alone ==> FoldOrder(rows, order, res, alone) == order
  {
    AwaitingCourse(env, cap, rows, order, next, original, replaced, honoured, rows0, order0, res, n, alone);
  }

  lemma UnderWayIsWellFormed(env: Env, cap: nat, rows: Rows, order: seq<TaskId>, next: nat,
                             original: set<TaskId>, replaced: set<TaskId>, honoured: set<TaskId>)
    requires UnderWay(env, cap, rows, order, next, original, replaced, honoured)
    ensures WellFormed(rows, order) && Fresh(rows, next)
    ensures |rows| == |original| + 2 * |honoured| && honoured <= original && honoured <= replaced
    ensures forall t :: t in rows && !rows[t].status.Terminal() ==> Untouched(rows[t])
  {
    hide Sound;
    hide Settling;
  }

  /** Folding the `k`-th result moves the loop on by one. */
  lemma FoldAdvances(env: Env, cap: nat, rows: Rows, order: seq<TaskId>, next: nat, original: set<TaskId>,
                     replaced: set<TaskId>, honoured: set<TaskId>,
                     rows0: Rows, order0: seq<TaskId>, honoured0: set<TaskId>,
                     results: seq<WaveResult>, serials: seq<nat>, k: nat, usage: seq<UsageRecord>)
    returns (replaced': set<TaskId>, honoured': set<TaskId>)
    requires FoldSoFar(env, cap, rows, order, next, original, replaced, honoured, rows0, order0, honoured0,
                       results, serials, k, usage)
    requires k < |results|
    ensures var res, alone := results[k], |results| == 1;
            && res.id in rows && res.id in res.rows && res.rows[res.id].id == res.id
            && WellFormed(FoldRows(rows, res, alone), FoldOrder(rows, order, res, alone))
            && replaced <= replaced'
            && replaced' == (if Honours(env, cap, rows, res, alone) || LosesParts(env, cap, rows, res)
                             then replaced + {res.id} else replaced)
            && FoldSoFar(env, cap, FoldRows(rows, res, alone), FoldOrder(rows, order, res, alone), next, original,
                         replaced', honoured', rows0, order0, honoured0, results, serials, k + 1, usage)
  {
    hide UnderWay;
    hide Awaiting;
    hide BookedExcept;
    hide FoldRows;
    hide FoldOrder;
    hide WellFormed;
    hide OthersReady;
    hide AttemptsKept;
    hide NoRepeats;
    hide Open;
    hide EdgesOf;
    hide Honours;
    hide LosesParts;
    var res, n, alone := results[k], serials[k], |results| == 1;
    AwaitingFacts(env, cap, rows, order, next, original, replaced, honoured, rows0, order0, res, n, alone);
    replaced', honoured' := FoldStep(env, cap, rows, order, next, original, replaced, honoured,
                                     rows0, order0, res, n, alone);
    var after, order' := FoldRows(rows, res, alone), FoldOrder(rows, order, res, alone);
    UnderWayIsWellFormed(env, cap, after, order', next, original, replaced', honoured');
    FoldKeepsBooks(usage, rows, after, results, k);
    forall j | k + 1 <= j < |results|
      ensures Awaiting(env, cap, after, order', next, rows0, order0, results[j], serials[j], alone)
    {
      IdsDiffer(results, k, j);
      AwaitingKept(env, cap, rows, after, order, next, rows0, order0, res.id, results[j], serials[j]);
    }
  }

  /** Folding the `k`-th result is a move of the plan, and keeps what the run has lived through. */
  lemma FoldLives(env: Env, cap: nat, rows0: Rows, rows: Rows, order: seq<TaskId>, next: nat, original: set<TaskId>,
                  replaced: set<TaskId>, honoured: set<TaskId>, before: Rows, order0: seq<TaskId>,
                  honoured0: set<TaskId>, results: seq<WaveResult>, serials: seq<nat>, k: nat,
                  usage: seq<UsageRecord>, done: seq<TaskId>, decided: bool, replaced': set<TaskId>)
    requires FoldSoFar(env, cap, rows, order, next, original, replaced, honoured, before, order0, honoured0,
                       results, serials, k, usage)
    requires k < |results|
    requires Lived(env, cap, rows0, rows, replaced, done, decided)
    requires decided ==> |results| <= 1 || NoneConflict(env, cap, rows0)
    requires replaced' == (if || Honours(env, cap, rows, results[k], |results| == 1)
                              || LosesParts(env, cap, rows, results[k])
                           then replaced + {results[k].id} else replaced)
    ensures |serials| == |results|
    ensures Lived(env, cap, rows0, FoldRows(rows, results[k], |results| == 1), replaced', done + [results[k].id],
                  decided)
    ensures Moved(env, cap, rows, replaced, results[k].id, serials[k], |results| == 1,
                  FoldRows(rows, results[k], |results| == 1), replaced')
  {
    hide UnderWay; hide Awaiting; hide BookedExcept; hide FoldRows; hide Lived; hide Moved; hide Honours;
    hide LosesParts;
    hide NoRepeats; hide Open; hide EdgesOf; hide Over;
    var res, alone := results[k], |results| == 1;
    UnderWayFacts(env, cap, rows, order, next, original, replaced, honoured);
    FoldMoves(env, cap, rows, order, next, original, replaced, honoured, before, order0, res, serials[k], alone,
              replaced');
    hide Closed; hide Settling; hide Sound; hide Acyclic;
    MoveKeepsLived(env, cap, rows0, rows, replaced, done, decided, res.id, serials[k], alone,
                   FoldRows(rows, res, alone), replaced');
  }

  /** What a wave of several does to its members that are split: they end skipped, unless their work
      does not land, and their parts never join; the plan has the tasks it had. */
  ghost predicate PartsLost(env: Env, cap: nat, before: Rows, after: Rows, wave: seq<TaskId>) {
    && EdgesOf(after) == EdgesOf(before)
    && (forall t :: t in before ==> t in after && after[t].parent == before[t].parent)
    && (forall t :: t in wave && t in before && IsLost(env, cap, before[t].parent, t) ==>
          t in after && after[t].status.Skipped?)
  }

  predicate IsLost(env: Env, cap: nat, parent: Option<TaskId>, t: TaskId) {
    Overflows(env, cap, t) && parent.None? && !env.landing(t).Conflicting?
  }

  lemma NothingLost(env: Env, cap: nat, rows: Rows, results: seq<WaveResult>)
    ensures PartsLost(env, cap, rows, rows, ResultIds(results[..0]))
  {
    hide IsLost; hide EdgesOf;
    assert ResultIds(results[..0]) == [];
  }

  lemma OneMoreLost(env: Env, cap: nat, before: Rows, rows: Rows, after: Rows, results: seq<WaveResult>, k: nat,
                    replaced: set<TaskId>, n: nat, replaced': set<TaskId>)
    requires k < |results| && PartsLost(env, cap, before, rows, ResultIds(results[..k]))
    requires Moved(env, cap, rows, replaced, results[k].id, n, false, after, replaced')
    ensures PartsLost(env, cap, before, after, ResultIds(results[..k + 1]))
  {
    var w, ids := results[k].id, ResultIds(results[..k]);
    MovedInCompany(env, cap, rows, replaced, w, n, after, replaced');
    SameRows(rows, before);
    hide Moved; hide EdgesOf; hide IsLost;
    assert ResultIds(results[..k + 1]) == ids + [w];
    WaveGrowsLost(env, cap, before, rows, after, ids, w);
  }

  lemma WaveGrowsLost(env: Env, cap: nat, before: Rows, rows: Rows, after: Rows, ids: seq<TaskId>, w: TaskId)
    requires PartsLost(env, cap, before, rows, ids) && rows.Keys == before.Keys && EdgesOf(after) == EdgesOf(rows)
    requires forall t :: t in rows ==> t in after && after[t].parent == rows[t].parent
    requires forall t :: t in rows && rows[t].status.Terminal() ==> t in after && after[t].status == rows[t].status
    requires w in rows && (IsLost(env, cap, rows[w].parent, w) ==> w in after && after[w].status.Skipped?)
    ensures PartsLost(env, cap, before, after, ids + [w])
  {
    hide EdgesOf; hide IsLost;
  }

  lemma SameRows(rows: Rows, before: Rows)
    ensures EdgesOf(rows) == EdgesOf(before) ==> rows.Keys == before.Keys
  {
    assert EdgesOf(rows).Keys == rows.Keys && EdgesOf(before).Keys == before.Keys;
  }

  lemma MovedInCompany(env: Env, cap: nat, rows: Rows, replaced: set<TaskId>, w: TaskId, n: nat, after: Rows,
                       replaced': set<TaskId>)
    requires Moved(env, cap, rows, replaced, w, n, false, after, replaced')
    ensures w in rows && EdgesOf(after) == EdgesOf(rows)
    ensures forall t :: t in rows ==> t in after && after[t].parent == rows[t].parent
    ensures forall t :: t in rows && rows[t].status.Terminal() ==> t in after && after[t].status == rows[t].status
    ensures IsLost(env, cap, rows[w].parent, w) ==> w in after && after[w].status.Skipped?
  {
    var e, b, e', b' := EdgesOf(rows), BoardOf(rows), EdgesOf(after), BoardOf(after);
    hide IsReady; hide Overflows; hide SplitsNow; hide Good;
    if replaced' == replaced {
      PlainOnlyMoves(e, b, Good(env, cap), w, e', b');
    } else {
      LostOnlyMoves(e, b, w, e', b');
    }
    hide PlainMove; hide EdgesOf;
    assert forall t :: t in rows ==> b[t] == rows[t].status;
    assert forall t :: t in after ==> b'[t] == after[t].status;
  }

  lemma NoIdsYet(results: seq<WaveResult>, done: seq<TaskId>)
    ensures done + ResultIds(results[..0]) == done
  {
  }

  lemma OneMoreId(results: seq<WaveResult>, k: nat, done: seq<TaskId>)
    requires k < |results|
    ensures done + ResultIds(results[..k]) + [results[k].id] == done + ResultIds(results[..k + 1])
  {
    assert ResultIds(results[..k + 1]) == ResultIds(results[..k]) + [results[k].id];
  }

  lemma NothingAppended(done: seq<TaskId>)
    ensures done + [] == done
  {
  }

  lemma EmptyShortlist(env: Env, rows: Rows, order: seq<TaskId>, limit: nat, claims: Claims)
    ensures Frontier(rows, order) == [] ==> !SomeCanGo(env, rows, claims, Shortlist(rows, order, limit))
  {
    hide Frontier; hide CanGo;
  }

  lemma NobodyCanGo(env: Env, rows: Rows, claims: Claims)
    ensures !SomeCanGo(env, rows, claims, [])
  {
  }

  lemma SplitsNowIs(env: Env, cap: nat, rows: Rows, w: TaskId)
    requires w in rows
    ensures SplitsNow(env, cap, rows, w) <==> Splits(rows[w], RowCourse(env, cap, rows[w]))
  {
  }

  lemma AdmittedFit(ready: seq<TaskId>, admitted: seq<TaskId>)
    requires NoRepeats(admitted) && forall t :: t in admitted ==> t in ready
    ensures |admitted| <= |ready|
  {
    NoRepeatsFits(admitted, ToSet(ready));
    DistinctFew(ready);
  }

  lemma {:induction false} DistinctFew(ready: seq<TaskId>)
    ensures |ToSet(ready)| <= |ready|
  {
    if ready != [] {
      var n := |ready| - 1;
      DistinctFew(ready[..n]);
      assert ready == ready[..n] + [ready[n]];
      assert ToSet(ready) == ToSet(ready[..n]) + {ready[n]};
    }
  }

  lemma IdsCount(results: seq<WaveResult>, wave: seq<TaskId>)
    requires ResultIds(results) == wave
    ensures |results| == |wave| && forall i :: 0 <= i < |wave| ==> results[i].id == wave[i]
    ensures wave == [] ==> results == []
  {
    assert |ResultIds(results)| == |results|;
  }

  lemma DecidedFor(env: Env, cap: nat, rows0: Rows, parallelism: nat, n: nat, decided: bool)
    requires decided ==> Decided(env, cap, rows0, parallelism)
    requires n <= parallelism
    ensures decided ==> n <= 1 || NoneConflict(env, cap, rows0)
  {
  }

  /** The tasks a pass looks at: the head of the frontier, as long as the limit allows. */
  ghost function Shortlist(rows: Rows, order: seq<TaskId>, limit: nat): seq<TaskId> {
    var f := Frontier(rows, order);
    if |f| > limit then f[..limit] else f
  }

  lemma ShortlistFacts(rows: Rows, order: seq<TaskId>, limit: nat)
    requires WellFormed(rows, order) && limit >= 1
    ensures var s := Shortlist(rows, order, limit);
            && s == (if |Frontier(rows, order)| > limit then Frontier(rows, order)[..limit] else Frontier(rows, order))
            && |s| <= limit && NoRepeats(s) && (s == [] <==> Frontier(rows, order) == [])
            && forall t :: t in s ==> IsReady(EdgesOf(rows), BoardOf(rows), t)
  {
    FrontierIsExact(rows, order);
    hide Frontier; hide IsReady; hide Served;
  }

  /** How many more tasks are run, one at a time, before nothing is ready any more. */
  ghost function ToRun(env: Env, cap: nat, rows0: Rows, rows: Rows, next: nat): nat {
    Remaining(EdgesOf(rows), Good(env, cap), Over(env, cap, rows0), BoardOf(rows), next)
  }

  lemma AloneIsOneLess(env: Env, cap: nat, rows0: Rows, rows: Rows, order: seq<TaskId>, from: nat,
                       original: set<TaskId>, replaced: set<TaskId>, honoured: set<TaskId>, done: seq<TaskId>,
                       decided: bool, w: TaskId, after: Rows, replaced': set<TaskId>, next: nat)
    requires UnderWay(env, cap, rows, order, from, original, replaced, honoured)
    requires Lived(env, cap, rows0, rows, replaced, done, decided)
    requires Moved(env, cap, rows, replaced, w, from, true, after, replaced')
    requires w in rows && next == if SplitsNow(env, cap, rows, w) then from + 2 else from
    ensures ToRun(env, cap, rows0, after, next) + 1 == ToRun(env, cap, rows0, rows, from)
  {
    hide *;
    UnderWayFacts(env, cap, rows, order, from, original, replaced, honoured);
    MoveIsOneLess(env, cap, rows0, rows, replaced, done, decided, w, from, after, replaced');
    ToRunIs(env, cap, rows0, rows, from);
    ToRunIs(env, cap, rows0, after, next);
  }

  lemma ToRunIs(env: Env, cap: nat, rows0: Rows, rows: Rows, next: nat)
    ensures ToRun(env, cap, rows0, rows, next)
         == Remaining(EdgesOf(rows), Good(env, cap), Over(env, cap, rows0), BoardOf(rows), next)
  {
  }

  lemma IdsDiffer(results: seq<WaveResult>, j: nat, k: nat)
    requires NoRepeats(ResultIds(results)) && j < k < |results|
    ensures results[j].id != results[k].id
  {
    assert ResultIds(results)[j] == results[j].id && ResultIds(results)[k] == results[k].id;
  }

  /** The first `i` members of the wave have run, and the books know it. */
  ghost predicate WaveSoFar(env: Env, cap: nat, rows: Rows, order: seq<TaskId>, from: nat, upto: nat,
                            wave: seq<TaskId>, i: nat, results: seq<WaveResult>, serials: seq<nat>,
                            usage: seq<UsageRecord>)
  {
    && i <= |wave| && |results| == |serials| == i
    && ResultIds(results) == wave[..i]
    && (forall k :: 0 <= k < i ==> Member(env, cap, rows, order, from, upto, results[k], serials[k]))
    && BookedExcept(usage, rows, results, 0)
  }

  lemma WaveStarts(env: Env, cap: nat, rows: Rows, order: seq<TaskId>, next: nat, wave: seq<TaskId>,
                   usage: seq<UsageRecord>)
    requires Booked(usage, rows)
    ensures WaveSoFar(env, cap, rows, order, next, next, wave, 0, [], [], usage)
  {
    BooksOpen(usage, rows);
  }

  lemma WaveGrows(env: Env, cap: nat, rows: Rows, order: seq<TaskId>, from: nat, serial: nat, upto: nat,
                  wave: seq<TaskId>, i: nat, results: seq<WaveResult>, serials: seq<nat>, booked: seq<UsageRecord>,
                  res: WaveResult, usage: seq<UsageRecord>)
    requires WaveSoFar(env, cap, rows, order, from, serial, wave, i, results, serials, booked)
    requires i < |wave| && NoRepeats(wave) && from <= serial <= upto && Fresh(rows, serial)
    requires wave[i] in rows && rows[wave[i]].attempts == []
    requires res.id == wave[i] && Ran(env, cap, rows, order, res, serial)
    requires Splits(rows[wave[i]], RowCourse(env, cap, rows[wave[i]])) ==> serial + 2 <= upto
    requires usage == booked + RecordsOf(wave[i], RowCourse(env, cap, rows[wave[i]]).attempts)
    ensures WaveSoFar(env, cap, rows, order, from, upto, wave, i + 1, results + [res], serials + [serial], usage)
  {
    hide Ran;
    hide RowCourse;
    hide RecordsOf;
    hide BookedExcept;
    var c := RowCourse(env, cap, rows[wave[i]]);
    RanAttempts(env, cap, rows, order, res, serial);
    assert [] + c.attempts == c.attempts;
    WaveHasNoRepeats(wave, i, results);
    RunKeepsBooks(booked, rows, results, res);
    MembersLater(env, cap, rows, order, from, serial, upto, results, serials);
    NewMember(env, cap, rows, order, from, upto, res, serial);
    ResultIdsAppend(results, res, wave, i);
  }

  /** A result of the wave, with ids drawn between `from` and `upto`. */
  ghost predicate Member(env: Env, cap: nat, rows: Rows, order: seq<TaskId>, from: nat, upto: nat,
                         res: WaveResult, n: nat)
  {
    && from <= n
    && Ran(env, cap, rows, order, res, n)
    && (Splits(rows[res.id], RowCourse(env, cap, rows[res.id])) ==> n + 2 <= upto)
  }

  lemma NewMember(env: Env, cap: nat, rows: Rows, order: seq<TaskId>, from: nat, upto: nat, res: WaveResult, n: nat)
    requires from <= n && Ran(env, cap, rows, order, res, n)
    requires res.id in rows && (Splits(rows[res.id], RowCourse(env, cap, rows[res.id])) ==> n + 2 <= upto)
    ensures Member(env, cap, rows, order, from, upto, res, n)
  {
  }

  lemma MembersLater(env: Env, cap: nat, rows: Rows, order: seq<TaskId>, from: nat, upto: nat, later: nat,
                     results: seq<WaveResult>, serials: seq<nat>)
    requires |results| == |serials| && upto <= later
    requires forall k :: 0 <= k < |results| ==> Member(env, cap, rows, order, from, upto, results[k], serials[k])
    ensures forall k :: 0 <= k < |results| ==> Member(env, cap, rows, order, from, later, results[k], serials[k])
  {
    hide Ran;
    hide RowCourse;
  }

  lemma FreshLater(rows: Rows, next: nat, later: nat)
    requires Fresh(rows, next) && next <= later
    ensures Fresh(rows, later)
  {
  }

  lemma WaveHasNoRepeats(wave: seq<TaskId>, i: nat, results: seq<WaveResult>)
    requires NoRepeats(wave) && i < |wave| && ResultIds(results) == wave[..i]
    ensures wave[i] !in ResultIds(results)
  {
  }

  lemma ResultIdsAppend(results: seq<WaveResult>, res: WaveResult, wave: seq<TaskId>, i: nat)
    requires i < |wave| && ResultIds(results) == wave[..i] && res.id == wave[i]
    ensures ResultIds(results + [res]) == wave[..i + 1]
  {
    assert wave[..i + 1] == wave[..i] + [wave[i]];
  }

  lemma ExecutedKeepsRow(env: Env, rows: Rows, order: seq<TaskId>, id: TaskId, c: Course, next: nat, r: TaskResult,
                         rows': Rows, order': seq<TaskId>, next': nat)
    requires id in rows && rows[id].id == id && Fresh(rows, next) && Sound(EdgesOf(rows))
    requires TaskExecuted(rows, order, rows[id], c, next, r, rows', order', next')
    ensures id in rows' && r.Ok?
    ensures next' >= next && (Splits(rows[id], c) ==> next' == next + 2)
  {
    hide Sound;
  }

  function RowAfterStep(task: Task, step: Step): Task {
    match step
    case Stopped(_) => task.(status := Failed)
    case Won(a, changed) =>
      task.(status := Completed, target := Some(a.target), attempts := task.attempts + [a],
            artifacts := task.artifacts + changed)
    case Lost(a) => task.(status := Running, target := Some(a.target), attempts := task.attempts + [a])
  }

  function AttemptsOf(step: Step): seq<Attempt> {
    if step.Stopped? then [] else [step.attempt]
  }

  /** A row in the middle of its course: like `now` in status and target, otherwise `row` plus what was spent. */
  function Underway(row: Task, now: Task, spent: seq<Attempt>, changed: seq<string>): Task {
    row.(status := now.status, target := now.target,
         attempts := row.attempts + spent, artifacts := row.artifacts + changed)
  }

  /** What one turn adds to the course of a task. */
  ghost predicate TurnTaken(env: Env, cap: nat, before: Task, after: Task, abandoned: seq<Target>, onTarget: nat,
                            over: Option<End>, abandoned': seq<Target>, onTarget': nat,
                            spent: seq<Attempt>, changed: seq<string>)
  {
    var id, n := before.id, |before.attempts|;
    var c := CourseFrom(env, cap, id, n, abandoned, onTarget, before.target);
    if over.None? then
      && n < cap && |spent| == 1 && changed == []
      && c == Prepend(spent, CourseFrom(env, cap, id, n + 1, abandoned', onTarget', after.target))
    else
      c == Course(spent, changed, after.target, over.value) && after.status == EndStatus(over.value)
  }

  /** Where the loop stands: what is spent so far, followed by the rest of the course. */
  ghost predicate CourseSoFar(env: Env, cap: nat, row: Task, c: Course, now: Task, abandoned: seq<Target>,
                              onTarget: nat,
                              over: Option<End>, spent: seq<Attempt>, changed: seq<string>)
  {
    && now == Underway(row, now, spent, changed)
    && if over.None? then
         && changed == []
         && c == Prepend(spent, CourseFrom(env, cap, row.id, |row.attempts| + |spent|, abandoned, onTarget, now.target))
       else
         c == Course(spent, changed, now.target, over.value) && now.status == EndStatus(over.value)
  }

  lemma UnderwayStep(before: Task, step: Step)
    ensures var after := RowAfterStep(before, step);
            after == Underway(before, after, AttemptsOf(step), if step.Won? then step.changed else [])
  {
    assert before.attempts + [] == before.attempts && before.artifacts + [] == before.artifacts;
  }

  /** What a course made of a row, read off the attempts it added. */
  ghost predicate RowExplained(env: Env, cap: nat, before: Task, after: Task, end: End) {
    exists tries, changed :: RowTells(env, cap, before, after, end, tries, changed)
  }

  ghost predicate RowTells(env: Env, cap: nat, before: Task, after: Task, end: End, tries: seq<Attempt>,
                           changed: seq<string>)
  {
    && Courses.Explained(env, cap, before.id, |before.attempts|, tries, changed, end)
    && after == before.(status := after.status, target := after.target, attempts := before.attempts + tries,
                        artifacts := before.artifacts + changed)
    && after.target == (if tries == [] then before.target else Some(tries[|tries| - 1].target))
    && (after.status.Completed? <==> tries != [] && tries[|tries| - 1].success)
    && (after.status.Running? <==> end.AskedPlanner?)
    && (after.status.Completed? || after.status.Running? || after.status.Failed?)
  }

  lemma RowIsExplained(env: Env, cap: nat, row: Task)
    ensures RowExplained(env, cap, row, RowAfter(row, RowCourse(env, cap, row)), RowCourse(env, cap, row).end)
  {
    var c := RowCourse(env, cap, row);
    Courses.CourseIsExplained(env, cap, row.id, |row.attempts|, row.target);
    CourseIsBounded(env, cap, row.id, |row.attempts|, [], 0, row.target);
    CourseEndsWithSuccess(env, cap, row.id, |row.attempts|, [], 0, row.target);
    hide CourseFrom; hide Courses.Explained;
    assert RowTells(env, cap, row, RowAfter(row, c), c.end, c.attempts, c.changed);
  }

  lemma CourseStarts(env: Env, cap: nat, row: Task)
    ensures CourseSoFar(env, cap, row, RowCourse(env, cap, row), row, [], 0, None, [], [])
    ensures RecordsOf(row.id, []) == [] && OutcomesOf([]) == []
  {
    var c := RowCourse(env, cap, row);
    assert row.attempts + [] == row.attempts && row.artifacts + [] == row.artifacts;
    assert [] + c.attempts == c.attempts;
  }

  lemma CourseEnds(env: Env, cap: nat, row: Task, c: Course, now: Task, abandoned: seq<Target>, onTarget: nat,
                   over: Option<End>, spent: seq<Attempt>, changed: seq<string>)
    requires over.Some? && CourseSoFar(env, cap, row, c, now, abandoned, onTarget, over, spent, changed)
    ensures over.value == c.end && now == RowAfter(row, c) && spent == c.attempts
  {
  }

  lemma TurnAdds(env: Env, cap: nat, row: Task, c: Course, before: Task, after: Task,
                 abandoned: seq<Target>, onTarget: nat, over: Option<End>, abandoned': seq<Target>, onTarget': nat,
                 spent: seq<Attempt>, sofar: seq<string>, more: seq<Attempt>, changed: seq<string>)
    requires CourseSoFar(env, cap, row, c, before, abandoned, onTarget, None, spent, sofar)
    requires TurnTaken(env, cap, before, after, abandoned, onTarget, over, abandoned', onTarget', more, changed)
    requires after == Underway(before, after, more, changed)
    ensures CourseSoFar(env, cap, row, c, after, abandoned', onTarget', over, spent + more, changed)
    ensures over.None? ==> |row.attempts| + |spent| < cap && |more| == 1
  {
    hide CourseFrom;
    assert row.attempts + spent + more == row.attempts + (spent + more);
    assert row.artifacts + [] + changed == row.artifacts + changed;
    if over.None? {
      var rest := CourseFrom(env, cap, row.id, |before.attempts| + 1, abandoned', onTarget', after.target);
      assert spent + (more + rest.attempts) == spent + more + rest.attempts;
    }
  }

  lemma LedgerGrows(id: TaskId, spent: seq<Attempt>, more: seq<Attempt>)
    ensures RecordsOf(id, spent + more) == RecordsOf(id, spent) + RecordsOf(id, more)
    ensures OutcomesOf(RecordsOf(id, spent + more))
         == OutcomesOf(RecordsOf(id, spent)) + OutcomesOf(RecordsOf(id, more))
  {
  }
}
