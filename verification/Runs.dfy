/** What holds while a plan is being executed, and how folding one result back keeps it. */
module Runs {
  import opened Dag
  import opened Tokens
  import opened Waves
  import opened Tasks
  import opened Attempts
  import opened Validation
  import opened Cascades
  import opened Replanning

  datatype TaskResult = Ok(success: bool) | Err

  /** A task's row once its course is over, before any re-planning. */
  function RowAfter(row: Task, c: Course): Task {
    row.(status := EndStatus(c.end), target := c.last,
         attempts := row.attempts + c.attempts, artifacts := row.artifacts + c.changed)
  }

  /** The planner splits an overflowing task, unless it is itself a part. */
  predicate Splits(row: Task, c: Course) {
    c.end == AskedPlanner(true) && row.parent.None?
  }

  /** The row of a task that was not split: an unanswered request to re-plan is a failure. */
  function SettledRow(row: Task, c: Course): Task {
    if c.end.AskedPlanner? then RowAfter(row, c).(status := Failed) else RowAfter(row, c)
  }

  function RowCourse(env: Env, cap: nat, row: Task): Course {
    CourseOf(env, cap, row.id, |row.attempts|, row.target)
  }

  /** What executing one task does to the graph it was given. */
  ghost predicate TaskExecuted(rows: Rows, order: seq<TaskId>, row: Task, c: Course, next: nat,
                               r: TaskResult, rows': Rows, order': seq<TaskId>, next': nat)
  {
    if !Splits(row, c) then
      && r == Ok(c.end.Done?)
      && rows' == rows[row.id := SettledRow(row, c)]
      && order' == order
      && next' == next
    else if r == Ok(true) then
      && rows' == SplitRows(rows[row.id := RowAfter(row, c)], RowAfter(row, c), TaskId(next), TaskId(next + 1))
      && order' == order + [TaskId(next)] + [TaskId(next + 1)]
      && next' == next + 2
    else
      r.Err? && !Sound(EdgesOf(rows))
  }

  /** How a finished task's isolated work came back: applied changes become artifacts, a
      change that no longer applies fails the task. */
  function Landed(row: Task, landing: Landing): Task {
    match landing
    case InPlace => row
    case Applied(changed) => row.(artifacts := AddMissing(row.artifacts, changed))
    case Conflicting => row.(status := Failed)
  }

  function AddMissing(known: seq<string>, more: seq<string>): seq<string>
    decreases |more|
  {
    if more == [] then known
    else AddMissing(if more[0] in known then known else known + [more[0]], more[1..])
  }

  /** `all` is `known` and behind it, once each, what else `more` names. */
  ghost predicate AddedOnce(known: seq<string>, more: seq<string>, all: seq<string>) {
    && known <= all && (forall x :: x in all <==> x in known || x in more)
    && NoRepeats(all[|known|..]) && (forall i :: |known| <= i < |all| ==> all[i] !in known)
  }

  lemma OneMoreAdded(known: seq<string>, more: seq<string>, all: seq<string>)
    requires more != [] && more[0] !in known && AddedOnce(known + [more[0]], more[1..], all)
    ensures AddedOnce(known, more, all)
  {
    var next, k := known + [more[0]], |known|;
    assert all[k] == next[k] == more[0] && known == next[..k];
    var tail, rest := all[k..], all[k + 1..];
    assert tail == [more[0]] + rest;
    forall i | 0 <= i < |rest|
      ensures rest[i] != more[0] && rest[i] !in known
    {
      assert rest[i] == all[k + 1 + i] && all[k + 1 + i] !in next;
    }
    forall i | k <= i < |all|
      ensures all[i] !in known
    {
      assert i > k ==> all[i] == rest[i - k - 1];
    }
    assert more == [more[0]] + more[1..];
  }

  /** Every changed file ends up among the artifacts, once, behind those that were there. */
  lemma {:induction false} AddMissingAddsOnce(known: seq<string>, more: seq<string>)
    ensures AddedOnce(known, more, AddMissing(known, more))
    decreases |more|
  {
    if more == [] {
      assert known[|known|..] == [];
    } else if more[0] in known {
      AddMissingAddsOnce(known, more[1..]);
    } else {
      AddMissingAddsOnce(known + [more[0]], more[1..]);
      hide AddedOnce;
      OneMoreAdded(known, more, AddMissing(known, more));
    }
  }

  /** Work that lands makes each changed file an artifact exactly once, and changes nothing else of the row. */
  lemma LandingAddsEachOnce(row: Task, changed: seq<string>)
    requires NoRepeats(row.artifacts)
    ensures var after := Landed(row, Applied(changed));
            && after == row.(artifacts := after.artifacts) && NoRepeats(after.artifacts)
            && row.artifacts <= after.artifacts
            && forall x :: x in after.artifacts <==> x in row.artifacts || x in changed
  {
    AddMissingAddsOnce(row.artifacts, changed);
    hide AddMissing;
    var all := Landed(row, Applied(changed)).artifacts;
    forall i, j | 0 <= i < j < |all|
      ensures all[i] != all[j]
    {
      if j < |row.artifacts| {
        assert all[i] == row.artifacts[i] && all[j] == row.artifacts[j];
      } else if i >= |row.artifacts| {
        var added := all[|row.artifacts|..];
        assert added[i - |row.artifacts|] == all[i] && added[j - |row.artifacts|] == all[j];
      }
    }
  }

  /** What one member of a wave hands back: its own copy of the plan and how it went. */
  datatype WaveResult = WaveResult(id: TaskId, rows: Rows, order: seq<TaskId>, result: TaskResult)

  /** `res` is what running `res.id` on a copy of the plan yields, drawing ids from `n` on. */
  ghost predicate Ran(env: Env, cap: nat, rows: Rows, order: seq<TaskId>, res: WaveResult, n: nat) {
    && res.id in rows
    && var row := rows[res.id];
       var c := RowCourse(env, cap, row);
       var landing := env.landing(res.id);
       var ok := Splits(row, c) || c.end.Done?;
       var base := if Splits(row, c)
                   then SplitRows(rows[row.id := RowAfter(row, c)], RowAfter(row, c), TaskId(n), TaskId(n + 1))
                   else rows[row.id := SettledRow(row, c)];
       && row.id == res.id
       && res.result == Ok(ok && !landing.Conflicting?)
       && res.rows == (if ok then base[res.id := Landed(base[res.id], landing)] else base)
       && res.order == if Splits(row, c) then order + [TaskId(n)] + [TaskId(n + 1)] else order
  }

  /** The oracle: the tasks that succeed, work landed included, once they get to run. */
  ghost function Good(env: Env, cap: nat): iset<TaskId> {
    iset id | Succeeds(env, cap, id)
  }

  predicate Succeeds(env: Env, cap: nat, id: TaskId) {
    CourseOf(env, cap, id, 0, None).end.Done? && !env.landing(id).Conflicting?
  }

  /** Tasks whose course ends in a request to re-plan that the planner honours. */
  predicate Overflows(env: Env, cap: nat, id: TaskId) {
    CourseOf(env, cap, id, 0, None).end == AskedPlanner(true)
  }

  ghost predicate Untouched(row: Task) {
    row.attempts == [] && row.target.None?
  }

  /** The rows themselves: well formed, unfinished ones never attempted, and only the first
      tasks without a parent. */
  ghost predicate Orderly(rows: Rows, order: seq<TaskId>, next: nat, original: set<TaskId>) {
    && WellFormed(rows, order)
    && Fresh(rows, next)
    && (forall t :: t in rows && !rows[t].status.Terminal() ==> Untouched(rows[t]))
    && (forall t :: t in rows && rows[t].parent.None? ==> t in original)
  }

  /** A plan under execution: `original` are its first tasks, `replaced` those a re-planning
      took out, `honoured` the ones among them whose parts joined the plan. */
  ghost predicate UnderWay(env: Env, cap: nat, rows: Rows, order: seq<TaskId>, next: nat, original: set<TaskId>,
                           replaced: set<TaskId>, honoured: set<TaskId>)
  {
    && Orderly(rows, order, next, original)
    && Sound(EdgesOf(rows))
    && Settling(EdgesOf(rows), Good(env, cap), replaced, BoardOf(rows))
    && (forall t :: t in replaced ==> Overflows(env, cap, t))
    && honoured <= original && honoured <= replaced
    && |rows| == |original| + 2 * |honoured|
  }

  /** How one result is folded into the plan: its own row; or, for a re-planning that ran
      alone, the whole revised plan; and behind a failure the cascade. */
  ghost function FoldRows(rows: Rows, res: WaveResult, alone: bool): Rows {
    if |res.rows| != |rows| && alone then res.rows else PlainRows(rows, res)
  }

  ghost function PlainRows(rows: Rows, res: WaveResult): Rows {
    var own := if res.id in rows && res.id in res.rows then rows[res.id := res.rows[res.id]] else rows;
    if res.result == Ok(true) || res.id !in own then own
    else
      var failed := own[res.id := own[res.id].(status := Failed)];
      SkipRows(failed, DoomedSet(EdgesOf(failed), BoardOf(failed), {res.id}))
  }

  ghost function FoldOrder(rows: Rows, order: seq<TaskId>, res: WaveResult, alone: bool): seq<TaskId> {
    if |res.rows| != |rows| && alone then res.order else order
  }

  /** Where folding stands: the result's row is still as it was when its wave started. */
  ghost predicate Awaiting(env: Env, cap: nat, rows: Rows, order: seq<TaskId>, next: nat,
                          rows0: Rows, order0: seq<TaskId>, res: WaveResult, n: nat, alone: bool)
  {
    && Fresh(rows0, n)
    && Ran(env, cap, rows0, order0, res, n)
    && (Splits(rows0[res.id], RowCourse(env, cap, rows0[res.id])) ==> n + 2 <= next)
    && res.id in rows && rows[res.id] == rows0[res.id]
    && IsReady(EdgesOf(rows), BoardOf(rows), res.id)
    && rows.Keys == rows0.Keys
    && (alone ==> rows == rows0 && order == order0)
  }

  ghost predicate Honours(env: Env, cap: nat, rows: Rows, res: WaveResult, alone: bool) {
    res.id in rows && Splits(rows[res.id], RowCourse(env, cap, rows[res.id])) && alone
  }

  lemma AwaitingCourse(env: Env, cap: nat, rows: Rows, order: seq<TaskId>, next: nat, original: set<TaskId>,
                      replaced: set<TaskId>, honoured: set<TaskId>,
                      rows0: Rows, order0: seq<TaskId>, res: WaveResult, n: nat, alone: bool)
    requires UnderWay(env, cap, rows, order, next, original, replaced, honoured)
    requires Awaiting(env, cap, rows, order, next, rows0, order0, res, n, alone)
    ensures res.id in rows && rows[res.id].id == res.id && IsReady(EdgesOf(rows), BoardOf(rows), res.id)
    ensures RowCourse(env, cap, rows[res.id]) == CourseOf(env, cap, res.id, 0, None)
    ensures res.id in res.rows && res.rows[res.id].id == res.id && res.rows[res.id].spec == rows[res.id].spec
    ensures res.rows[res.id].parent == rows[res.id].parent
    ensures |res.rows| != |rows| <==> Splits(rows[res.id], RowCourse(env, cap, rows[res.id]))
  {
    hide CourseOf;
    hide Sound;
    hide Settling;
    assert TaskId(n) !in rows0 && TaskId(n + 1) !in rows0;
    assert !BoardOf(rows)[res.id].Terminal();
    assert |rows0.Keys| == |rows.Keys|;
    var row := rows0[res.id];
    var c := RowCourse(env, cap, row);
    if Splits(row, c) {
      var split := SplitRows(rows0[row.id := RowAfter(row, c)], RowAfter(row, c), TaskId(n), TaskId(n + 1));
      assert split.Keys == rows0.Keys + {TaskId(n), TaskId(n + 1)};
      assert res.rows.Keys == split.Keys;
      assert |res.rows.Keys| == |rows0.Keys| + 2;
    } else {
      assert res.rows.Keys == rows0.Keys;
    }
  }

  ghost predicate LosesParts(env: Env, cap: nat, rows: Rows, res: WaveResult) {
    res.id in rows && Splits(rows[res.id], RowCourse(env, cap, rows[res.id])) && res.result == Ok(true)
  }

  ghost predicate BoardFolded(env: Env, cap: nat, rows: Rows, after: Rows, id: TaskId) {
    && id in rows
    && EdgesOf(after) == EdgesOf(rows)
    && BoardOf(after) == FoldOne(EdgesOf(rows), BoardOf(rows), Good(env, cap), id)
  }

  /** A result that was not split, or whose work could not land, moves the board as the oracle says. */
  lemma PlainFoldOnBoard(env: Env, cap: nat, rows: Rows, res: WaveResult)
    requires res.id in rows && res.id in res.rows && res.rows[res.id].spec == rows[res.id].spec
    requires res.result == Ok(true) ==> res.rows[res.id].status.Completed? && res.id in Good(env, cap)
    requires res.result != Ok(true) ==> res.id !in Good(env, cap)
    ensures BoardFolded(env, cap, rows, PlainRows(rows, res), res.id)
  {
    hide Succeeds;
    var e, b := EdgesOf(rows), BoardOf(rows);
    var own := rows[res.id := res.rows[res.id]];
    assert EdgesOf(own) == e;
    if res.result == Ok(true) {
      assert BoardOf(own) == b[res.id := Completed];
    } else {
      var failed := own[res.id := own[res.id].(status := Failed)];
      assert EdgesOf(failed) == e;
      assert BoardOf(failed) == b[res.id := Failed];
      SkipRowsIsSkip(failed, DoomedSet(e, BoardOf(failed), {res.id}));
    }
  }

  /** Only a task's own attempts change when its result is folded in. */
  ghost predicate AttemptsKept(rows: Rows, rows': Rows, res: WaveResult) {
    && rows.Keys <= rows'.Keys
    && res.id in rows' && res.id in res.rows && rows'[res.id].attempts == res.rows[res.id].attempts
    && (forall t :: t in rows && t != res.id ==> rows'[t].attempts == rows[t].attempts)
    && (forall t :: t in rows' && t !in rows ==> rows'[t].attempts == [])
  }

  /** Apart from the row of `id` and those skipped, nothing changed, and `id` is finished. */
  ghost predicate OnlyFates(rows: Rows, after: Rows, id: TaskId) {
    && after.Keys == rows.Keys && |after| == |rows|
    && id in rows && after[id].status.Terminal()
    && (forall t :: t in rows ==> after[t].id == rows[t].id && after[t].parent == rows[t].parent)
    && (forall t :: t in rows && t != id ==> after[t] == rows[t] || after[t].status.Skipped?)
  }

  lemma PlainRowsFacts(rows: Rows, res: WaveResult)
    requires res.id in rows && res.id in res.rows
    requires res.rows[res.id].id == rows[res.id].id && res.rows[res.id].parent == rows[res.id].parent
    requires res.result == Ok(true) ==> res.rows[res.id].status.Terminal()
    ensures OnlyFates(rows, PlainRows(rows, res), res.id)
    ensures AttemptsKept(rows, PlainRows(rows, res), res)
  {
    hide DoomedSet;
    hide SkipRows;
    hide OnlyFates;
    hide AttemptsKept;
    var own := rows[res.id := res.rows[res.id]];
    if res.result == Ok(true) {
      OwnRowFacts(rows, own, res);
    } else {
      var failed := own[res.id := own[res.id].(status := Failed)];
      OwnRowFacts(rows, failed, res);
      SkippedFacts(rows, failed, DoomedSet(EdgesOf(failed), BoardOf(failed), {res.id}), res);
    }
  }

  lemma OwnRowFacts(rows: Rows, own: Rows, res: WaveResult)
    requires res.id in rows && res.id in res.rows && res.id in own && own == rows[res.id := own[res.id]]
    requires own[res.id].attempts == res.rows[res.id].attempts
    requires own[res.id].id == rows[res.id].id && own[res.id].parent == rows[res.id].parent
    requires own[res.id].status.Terminal()
    ensures AttemptsKept(rows, own, res) && OnlyFates(rows, own, res.id)
  {
    assert own.Keys == rows.Keys;
    assert |own.Keys| == |rows.Keys|;
  }

  lemma SkippedFacts(rows: Rows, own: Rows, ts: set<TaskId>, res: WaveResult)
    requires AttemptsKept(rows, own, res) && OnlyFates(rows, own, res.id)
    ensures AttemptsKept(rows, SkipRows(own, ts), res) && OnlyFates(rows, SkipRows(own, ts), res.id)
  {
    assert SkipRows(own, ts).Keys == own.Keys;
    assert |SkipRows(own, ts).Keys| == |own.Keys|;
  }

  /** Only fates changed, and they changed lawfully: the plan is still under way. */
  lemma StillUnderWay(env: Env, cap: nat, rows: Rows, after: Rows, order: seq<TaskId>, next: nat,
                      original: set<TaskId>, replaced: set<TaskId>, replaced': set<TaskId>, honoured: set<TaskId>,
                      id: TaskId)
    requires UnderWay(env, cap, rows, order, next, original, replaced, honoured)
    requires OnlyFates(rows, after, id) && EdgesOf(after) == EdgesOf(rows)
    requires Settling(EdgesOf(rows), Good(env, cap), replaced', BoardOf(after))
    requires replaced <= replaced' && forall t :: t in replaced' ==> Overflows(env, cap, t)
    ensures UnderWay(env, cap, after, order, next, original, replaced', honoured)
  {
    hide Sound;
    hide Settling;
    hide EdgesOf;
    hide BoardOf;
    hide Good;
    hide Overflows;
  }

  lemma UnderWayFacts(env: Env, cap: nat, rows: Rows, order: seq<TaskId>, next: nat,
                      original: set<TaskId>, replaced: set<TaskId>, honoured: set<TaskId>)
    requires UnderWay(env, cap, rows, order, next, original, replaced, honoured)
    ensures Sound(EdgesOf(rows)) && Closed(EdgesOf(rows)) && Acyclic(EdgesOf(rows))
    ensures Settling(EdgesOf(rows), Good(env, cap), replaced, BoardOf(rows))
    ensures forall t :: t in replaced ==> Overflows(env, cap, t)
  {
    hide Settling;
    hide EdgesOf;
    hide BoardOf;
    hide Overflows;
  }

  /** Folding a plain result on the board, as `FoldKeepsSettling` has it. */
  lemma BoardStillSettling(env: Env, cap: nat, rows: Rows, after: Rows, replaced: set<TaskId>, id: TaskId)
    requires Closed(EdgesOf(rows)) && Settling(EdgesOf(rows), Good(env, cap), replaced, BoardOf(rows))
    requires BoardFolded(env, cap, rows, after, id) && IsReady(EdgesOf(rows), BoardOf(rows), id)
    ensures Settling(EdgesOf(rows), Good(env, cap), replaced, BoardOf(after))
  {
    FoldKeepsSettling(EdgesOf(rows), Good(env, cap), replaced, BoardOf(rows), id);
  }

  lemma AwaitingVerdict(env: Env, cap: nat, rows: Rows, order: seq<TaskId>, next: nat, original: set<TaskId>,
                       replaced: set<TaskId>, honoured: set<TaskId>,
                       rows0: Rows, order0: seq<TaskId>, res: WaveResult, n: nat, alone: bool)
    requires UnderWay(env, cap, rows, order, next, original, replaced, honoured)
    requires Awaiting(env, cap, rows, order, next, rows0, order0, res, n, alone)
    ensures res.id in res.rows
    ensures LosesParts(env, cap, rows, res) ==>
              && res.rows[res.id].status.Skipped? && res.rows[res.id].status.Terminal()
              && res.id !in Good(env, cap) && Overflows(env, cap, res.id)
    ensures !LosesParts(env, cap, rows, res) && res.result == Ok(true) ==>
              && res.rows[res.id].status.Completed? && res.rows[res.id].status.Terminal()
              && res.id in Good(env, cap)
    ensures res.result != Ok(true) ==> res.id !in Good(env, cap)
  {
    AwaitingCourse(env, cap, rows, order, next, original, replaced, honoured, rows0, order0, res, n, alone);
    hide CourseOf;
    hide UnderWay;
  }

  lemma FoldsPlainly(env: Env, cap: nat, rows: Rows, order: seq<TaskId>, res: WaveResult, alone: bool)
    requires res.id in rows
    requires |res.rows| != |rows| <==> Splits(rows[res.id], RowCourse(env, cap, rows[res.id]))
    requires !Honours(env, cap, rows, res, alone)
    ensures FoldRows(rows, res, alone) == PlainRows(rows, res)
    ensures FoldOrder(rows, order, res, alone) == order
  {
  }

  lemma FoldPlain(env: Env, cap: nat, rows: Rows, order: seq<TaskId>, next: nat, original: set<TaskId>,
                  replaced: set<TaskId>, honoured: set<TaskId>,
                  rows0: Rows, order0: seq<TaskId>, res: WaveResult, n: nat, alone: bool)
    requires UnderWay(env, cap, rows, order, next, original, replaced, honoured)
    requires Awaiting(env, cap, rows, order, next, rows0, order0, res, n, alone)
    requires !Honours(env, cap, rows, res, alone) && !LosesParts(env, cap, rows, res)
    ensures FoldRows(rows, res, alone) == PlainRows(rows, res)
    ensures FoldOrder(rows, order, res, alone) == order
    ensures UnderWay(env, cap, PlainRows(rows, res), order, next, original, replaced, honoured)
    ensures AttemptsKept(rows, PlainRows(rows, res), res)
    ensures BoardFolded(env, cap, rows, PlainRows(rows, res), res.id)
  {
    hide *;
    AwaitingCourse(env, cap, rows, order, next, original, replaced, honoured, rows0, order0, res, n, alone);
    AwaitingVerdict(env, cap, rows, order, next, original, replaced, honoured, rows0, order0, res, n, alone);
    UnderWayFacts(env, cap, rows, order, next, original, replaced, honoured);
    FoldsPlainly(env, cap, rows, order, res, alone);
    PlainFoldOnBoard(env, cap, rows, res);
    PlainRowsFacts(rows, res);
    BoardStillSettling(env, cap, rows, PlainRows(rows, res), replaced, res.id);
    FoldedEdges(env, cap, rows, PlainRows(rows, res), res.id);
    StillUnderWay(env, cap, rows, PlainRows(rows, res), order, next, original, replaced, replaced, honoured, res.id);
  }

  lemma FoldedEdges(env: Env, cap: nat, rows: Rows, after: Rows, id: TaskId)
    requires BoardFolded(env, cap, rows, after, id)
    ensures EdgesOf(after) == EdgesOf(rows)
  {
  }

  lemma LostOnBoard(env: Env, cap: nat, rows: Rows, res: WaveResult)
    requires res.id in rows && res.id in res.rows && res.rows[res.id].spec == rows[res.id].spec
    requires res.result == Ok(true)
    ensures EdgesOf(PlainRows(rows, res)) == EdgesOf(rows)
    ensures BoardOf(PlainRows(rows, res)) == BoardOf(rows)[res.id := res.rows[res.id].status]
  {
  }

  lemma FactsOfLost(env: Env, cap: nat, rows: Rows, res: WaveResult)
    requires LosesParts(env, cap, rows, res)
    ensures res.result == Ok(true)
  {
  }

  /** A re-planning that did not run alone: the task is skipped and its parts are dropped. */
  lemma FoldLost(env: Env, cap: nat, rows: Rows, order: seq<TaskId>, next: nat, original: set<TaskId>,
                 replaced: set<TaskId>, honoured: set<TaskId>,
                 rows0: Rows, order0: seq<TaskId>, res: WaveResult, n: nat, alone: bool)
    requires UnderWay(env, cap, rows, order, next, original, replaced, honoured)
    requires Awaiting(env, cap, rows, order, next, rows0, order0, res, n, alone)
    requires !Honours(env, cap, rows, res, alone) && LosesParts(env, cap, rows, res)
    ensures FoldRows(rows, res, alone) == PlainRows(rows, res)
    ensures FoldOrder(rows, order, res, alone) == order
    ensures UnderWay(env, cap, PlainRows(rows, res), order, next, original, replaced + {res.id}, honoured)
    ensures AttemptsKept(rows, PlainRows(rows, res), res)
    ensures EdgesOf(PlainRows(rows, res)) == EdgesOf(rows)
    ensures BoardOf(PlainRows(rows, res)) == BoardOf(rows)[res.id := Skipped]
    ensures res.id in rows && res.id !in Good(env, cap)
  {
    hide *;
    AwaitingCourse(env, cap, rows, order, next, original, replaced, honoured, rows0, order0, res, n, alone);
    AwaitingVerdict(env, cap, rows, order, next, original, replaced, honoured, rows0, order0, res, n, alone);
    UnderWayFacts(env, cap, rows, order, next, original, replaced, honoured);
    FoldsPlainly(env, cap, rows, order, res, alone);
    FactsOfLost(env, cap, rows, res);
    LostOnBoard(env, cap, rows, res);
    PlainRowsFacts(rows, res);
    SetAsideKeepsSettling(EdgesOf(rows), Good(env, cap), replaced, BoardOf(rows), res.id, Skipped);
    StillUnderWay(env, cap, rows, PlainRows(rows, res), order, next, original,
                  replaced, replaced + {res.id}, honoured, res.id);
  }

  // ------------------------------------------------------ a re-planning that ran alone

  lemma LandedOnBoard(base: Rows, id: TaskId, landing: Landing)
    requires id in base
    ensures var landed := base[id := Landed(base[id], landing)];
            EdgesOf(landed) == EdgesOf(base) && BoardOf(landed) == BoardOf(base)[id := landed[id].status]
  {
  }

  lemma RowOnBoard(rows: Rows, id: TaskId, row: Task)
    requires id in rows && row.spec == rows[id].spec
    ensures EdgesOf(rows[id := row]) == EdgesOf(rows)
    ensures BoardOf(rows[id := row]) == BoardOf(rows)[id := row.status]
  {
  }

  lemma LastWriteWins(b: Board, id: TaskId, one: TaskId, two: TaskId, x: TaskStatus, y: TaskStatus, s: TaskStatus,
                      p: TaskStatus)
    requires id != one && id != two && one != two
    ensures b[id := x][id := y][one := p][two := p][id := s] == b[id := s][one := p][two := p]
  {
  }

  /** What a split hands back, taken apart. */
  lemma SplitParts(env: Env, cap: nat, rows: Rows, order: seq<TaskId>, res: WaveResult, n: nat)
    returns (after: Task, base: Rows)
    requires Ran(env, cap, rows, order, res, n) && Fresh(rows, n)
    requires Splits(rows[res.id], RowCourse(env, cap, rows[res.id]))
    ensures TaskId(n) !in rows && TaskId(n + 1) !in rows
    ensures res.id in rows && after.id == res.id && after.spec == rows[res.id].spec
      && after.parent == rows[res.id].parent
    ensures base == SplitRows(rows[res.id := after], after, TaskId(n), TaskId(n + 1))
    ensures res.rows == base[res.id := Landed(base[res.id], env.landing(res.id))]
    ensures res.order == order + [TaskId(n)] + [TaskId(n + 1)]
    ensures rows[res.id].id == res.id && rows[res.id].parent.None?
  {
    hide CourseOf;
    assert TaskId(n) !in rows && TaskId(n + 1) !in rows;
    var row := rows[res.id];
    after := RowAfter(row, RowCourse(env, cap, row));
    base := SplitRows(rows[res.id := after], after, TaskId(n), TaskId(n + 1));
  }

  lemma SplitOnBoard(env: Env, cap: nat, rows: Rows, order: seq<TaskId>, res: WaveResult, n: nat)
    requires Ran(env, cap, rows, order, res, n) && Fresh(rows, n)
    requires Splits(rows[res.id], RowCourse(env, cap, rows[res.id]))
    ensures var one, two := TaskId(n), TaskId(n + 1);
            && one !in rows && two !in rows && one != two
            && res.id in rows && res.id in res.rows && EndsWell(res.rows[res.id].status)
            && EdgesOf(res.rows) == SplitEdges(EdgesOf(rows), res.id, one, two)
            && BoardOf(res.rows)
            == BoardOf(rows)[res.id := res.rows[res.id].status][one := Pending][two := Pending]
  {
    var after, base := SplitParts(env, cap, rows, order, res, n);
    hide Ran;
    hide Splits;
    hide RowCourse;
    var one, two := TaskId(n), TaskId(n + 1);
    var mid := rows[res.id := after];
    SplitRowsEdges(mid, after, one, two);
    RowOnBoard(rows, res.id, after);
    LandedOnBoard(base, res.id, env.landing(res.id));
    assert base[res.id].status.Skipped? && mid[res.id].spec == after.spec;
    LastWriteWins(BoardOf(rows), res.id, one, two, after.status, Skipped, res.rows[res.id].status, Pending);
    hide *;
  }

  /** How a task taken out of the plan may end. */
  predicate EndsWell(s: TaskStatus) {
    s.Skipped? || s.Failed?
  }

  /** Everything about the rows of a split that is not about edges and statuses. */
  ghost predicate SplitShape(rows: Rows, order: seq<TaskId>, res: WaveResult, n: nat) {
    var one, two := TaskId(n), TaskId(n + 1);
    && res.id in rows && one !in rows && two !in rows && one != two
    && res.rows.Keys == rows.Keys + {one, two} && |res.rows| == |rows| + 2
    && res.order == order + [one] + [two]
    && (forall t :: t in rows && t != res.id ==> res.rows[t] == rows[t])
    && res.rows[res.id].id == rows[res.id].id && res.rows[res.id].parent == rows[res.id].parent
    && (forall t :: t in {one, two} ==>
          res.rows[t].id == t && res.rows[t].parent.Some? && Untouched(res.rows[t]))
  }

  lemma TwoMoreRows(rows: Rows, base: Rows, one: TaskId, two: TaskId)
    requires base.Keys == rows.Keys + {one, two} && one !in rows && two !in rows && one != two
    ensures |base| == |rows| + 2
  {
    assert |base.Keys| == |base| && |rows.Keys| == |rows|;
  }

  lemma SplitRowsShape(rows: Rows, id: TaskId, after: Task, one: TaskId, two: TaskId, landing: Landing)
    requires id in rows && one !in rows && two !in rows && one != two
    requires after.id == id && rows[id].id == id && after.parent == rows[id].parent
    ensures var base := SplitRows(rows[id := after], after, one, two);
            var all := base[id := Landed(base[id], landing)];
            && all.Keys == rows.Keys + {one, two}
            && (forall t :: t in rows && t != id ==> all[t] == rows[t])
            && all[id].id == rows[id].id && all[id].parent == rows[id].parent
            && (forall t :: t in {one, two} ==> all[t].id == t && all[t].parent.Some? && Untouched(all[t]))
  {
    hide AddMissing;
  }

  lemma SplitHasShape(env: Env, cap: nat, rows: Rows, order: seq<TaskId>, res: WaveResult, n: nat)
    requires Ran(env, cap, rows, order, res, n) && Fresh(rows, n)
    requires Splits(rows[res.id], RowCourse(env, cap, rows[res.id]))
    ensures SplitShape(rows, order, res, n)
    ensures AttemptsKept(rows, res.rows, res)
    ensures rows[res.id].parent.None?
  {
    var after, base := SplitParts(env, cap, rows, order, res, n);
    SplitRowsShape(rows, res.id, after, TaskId(n), TaskId(n + 1), env.landing(res.id));
    TwoMoreRows(rows, res.rows, TaskId(n), TaskId(n + 1));
    hide Ran; hide Splits; hide RowCourse; hide SplitRows; hide Landed; hide Fresh;
  }

  lemma SplitSettles(e: Edges, good: iset<TaskId>, replaced: set<TaskId>, b: Board, w: TaskId, s: TaskStatus,
                     one: TaskId, two: TaskId)
    requires Closed(e) && Settling(e, good, replaced, b) && IsReady(e, b, w) && w !in good && EndsWell(s)
    requires one !in e && two !in e && one != two
    ensures Settling(SplitEdges(e, w, one, two), good, replaced + {w},
                     b[w := s][one := Pending][two := Pending])
  {
    SetAsideKeepsSettling(e, good, replaced, b, w, s);
    var more := SplitEdges(e, w, one, two);
    var b' := b[w := s][one := Pending][two := Pending];
    hide FinalStatus;
    forall t, d | t in more && t !in e && d in more[t] && d in more
      ensures Unobstructed(replaced + {w}, b', d)
    {
      if t == one {
        assert d in e[w];
        assert b[d].Completed? && d != w;
      }
    }
    ExtendKeepsSettling(e, more, good, replaced + {w}, b[w := s], b');
  }

  lemma SplitWellFormed(rows: Rows, order: seq<TaskId>, res: WaveResult, n: nat)
    requires WellFormed(rows, order) && SplitShape(rows, order, res, n)
    ensures WellFormed(res.rows, res.order)
  {
    hide Lists;
    ListsAppend(order, rows.Keys, TaskId(n));
    ListsAppend(order + [TaskId(n)], rows.Keys + {TaskId(n)}, TaskId(n + 1));
    assert rows.Keys + {TaskId(n)} + {TaskId(n + 1)} == res.rows.Keys;
  }

  lemma SplitOrderly(rows: Rows, order: seq<TaskId>, next: nat, original: set<TaskId>, res: WaveResult, n: nat)
    requires Orderly(rows, order, next, original) && SplitShape(rows, order, res, n) && n + 2 <= next
    requires rows[res.id].parent.None? && res.rows[res.id].status.Terminal()
    ensures Orderly(res.rows, res.order, next, original) && res.id in original
  {
    hide Untouched;
    SplitWellFormed(rows, order, res, n);
    hide WellFormed;
    forall t | t in res.rows
      ensures t.serial < next
      ensures !res.rows[t].status.Terminal() ==> Untouched(res.rows[t])
      ensures res.rows[t].parent.None? ==> t in original
    {
      if t in rows {
        SplitRow(rows, order, res, n, t);
      } else {
        SplitPart(rows, order, res, n, t);
      }
    }
  }

  lemma SplitRow(rows: Rows, order: seq<TaskId>, res: WaveResult, n: nat, t: TaskId)
    requires SplitShape(rows, order, res, n) && t in rows
    ensures t in res.rows && res.rows[t].parent == rows[t].parent && (t != res.id ==> res.rows[t] == rows[t])
  {
  }

  lemma SplitPart(rows: Rows, order: seq<TaskId>, res: WaveResult, n: nat, t: TaskId)
    requires SplitShape(rows, order, res, n) && t in res.rows && t !in rows
    ensures t in {TaskId(n), TaskId(n + 1)} && t.serial <= n + 1
    ensures res.rows[t].parent.Some? && Untouched(res.rows[t])
  {
    assert t in {TaskId(n), TaskId(n + 1)};
  }

  lemma SplitUnderWay(env: Env, cap: nat, rows: Rows, order: seq<TaskId>, next: nat, original: set<TaskId>,
                      replaced: set<TaskId>, honoured: set<TaskId>, res: WaveResult, n: nat)
    requires UnderWay(env, cap, rows, order, next, original, replaced, honoured)
    requires SplitShape(rows, order, res, n) && n + 2 <= next
    requires res.id !in replaced && rows[res.id].parent.None? && Overflows(env, cap, res.id)
    requires res.rows[res.id].status.Terminal()
    requires Sound(EdgesOf(res.rows))
    requires Settling(EdgesOf(res.rows), Good(env, cap), replaced + {res.id}, BoardOf(res.rows))
    ensures UnderWay(env, cap, res.rows, res.order, next, original, replaced + {res.id}, honoured + {res.id})
  {
    hide Sound;
    hide Settling;
    hide EdgesOf;
    hide BoardOf;
    hide Good;
    hide Overflows;
    SplitOrderly(rows, order, next, original, res, n);
    hide Orderly;
    assert |honoured + {res.id}| == |honoured| + 1;
  }

  lemma ReadyIsNotReplaced(e: Edges, good: iset<TaskId>, replaced: set<TaskId>, b: Board, w: TaskId)
    requires Settling(e, good, replaced, b) && IsReady(e, b, w)
    ensures w !in replaced
  {
  }

  lemma FactsOfHonours(env: Env, cap: nat, rows: Rows, order: seq<TaskId>, next: nat,
                       rows0: Rows, order0: seq<TaskId>, res: WaveResult, n: nat, alone: bool)
    requires Awaiting(env, cap, rows, order, next, rows0, order0, res, n, alone)
    requires Honours(env, cap, rows, res, alone)
    ensures res.id in rows && Ran(env, cap, rows, order, res, n) && Fresh(rows, n)
    ensures Splits(rows[res.id], RowCourse(env, cap, rows[res.id])) && alone && n + 2 <= next
    ensures |res.rows| != |rows| ==>
              FoldRows(rows, res, alone) == res.rows && FoldOrder(rows, order, res, alone) == res.order
  {
    hide Ran;
    hide RowCourse;
    hide IsReady;
  }

  lemma OverflowFacts(env: Env, cap: nat, row: Task)
    requires Splits(row, RowCourse(env, cap, row)) && RowCourse(env, cap, row) == CourseOf(env, cap, row.id, 0, None)
    ensures Overflows(env, cap, row.id) && row.id !in Good(env, cap)
  {
    hide CourseOf;
  }

  lemma FoldSplit(env: Env, cap: nat, rows: Rows, order: seq<TaskId>, next: nat, original: set<TaskId>,
                  replaced: set<TaskId>, honoured: set<TaskId>,
                  rows0: Rows, order0: seq<TaskId>, res: WaveResult, n: nat, alone: bool)
    requires UnderWay(env, cap, rows, order, next, original, replaced, honoured)
    requires Awaiting(env, cap, rows, order, next, rows0, order0, res, n, alone)
    requires Honours(env, cap, rows, res, alone)
    ensures FoldRows(rows, res, alone) == res.rows && FoldOrder(rows, order, res, alone) == res.order
    ensures UnderWay(env, cap, res.rows, res.order, next, original, replaced + {res.id}, honoured + {res.id})
    ensures AttemptsKept(rows, res.rows, res)
    ensures res.id in rows && res.id !in replaced && SplitShape(rows, order, res, n)
  {
    hide *;
    AwaitingCourse(env, cap, rows, order, next, original, replaced, honoured, rows0, order0, res, n, alone);
    FactsOfHonours(env, cap, rows, order, next, rows0, order0, res, n, alone);
    UnderWayFacts(env, cap, rows, order, next, original, replaced, honoured);
    OverflowFacts(env, cap, rows[res.id]);
    SplitOnBoard(env, cap, rows, order, res, n);
    SplitHasShape(env, cap, rows, order, res, n);
    var e, one, two := EdgesOf(rows), TaskId(n), TaskId(n + 1);
    SameKeys(rows);
    ReadyIsNotReplaced(e, Good(env, cap), replaced, BoardOf(rows), res.id);
    EndsTerminal(res.rows[res.id].status);
    SplitSettles(e, Good(env, cap), replaced, BoardOf(rows), res.id, res.rows[res.id].status, one, two);
    SplitKeepsSound(e, res.id, one, two);
    SplitUnderWay(env, cap, rows, order, next, original, replaced, honoured, res, n);
  }

  lemma SameKeys(rows: Rows)
    ensures EdgesOf(rows).Keys == rows.Keys && BoardOf(rows).Keys == rows.Keys
  {
  }

  lemma EndsTerminal(s: TaskStatus)
    requires EndsWell(s)
    ensures s.Terminal()
  {
  }

  // ------------------------------------------------------------------- one step

  ghost function Open(rows: Rows): nat {
    |Unfinished(BoardOf(rows))|
  }

  /** The other members of the wave are as ready as before, and their rows are untouched. */
  ghost predicate OthersReady(rows: Rows, after: Rows, id: TaskId) {
    && after.Keys == rows.Keys
    && forall x :: x in rows && x != id && IsReady(EdgesOf(rows), BoardOf(rows), x) ==>
         IsReady(EdgesOf(after), BoardOf(after), x) && after[x] == rows[x]
  }

  lemma ReadyRowsKept(rows: Rows, after: Rows, id: TaskId)
    requires OnlyFates(rows, after, id)
    requires forall x :: x != id && IsReady(EdgesOf(rows), BoardOf(rows), x) ==>
               IsReady(EdgesOf(after), BoardOf(after), x)
    ensures OthersReady(rows, after, id)
  {
    forall x | x in rows && x != id && IsReady(EdgesOf(rows), BoardOf(rows), x)
      ensures after[x] == rows[x]
    {
      assert Startable(BoardOf(after)[x]);
    }
  }

  lemma FewerOpen(b: Board, b': Board, w: TaskId)
    requires Unfinished(b') <= Unfinished(b) - {w} && w in Unfinished(b)
    ensures |Unfinished(b')| < |Unfinished(b)|
  {
    hide Unfinished;
    CardinalityLess(Unfinished(b'), Unfinished(b), w);
  }

  lemma PlainStep(env: Env, cap: nat, rows: Rows, after: Rows, replaced: set<TaskId>, id: TaskId)
    requires Closed(EdgesOf(rows)) && Settling(EdgesOf(rows), Good(env, cap), replaced, BoardOf(rows))
    requires IsReady(EdgesOf(rows), BoardOf(rows), id)
    requires BoardFolded(env, cap, rows, after, id) && OnlyFates(rows, after, id)
    ensures Open(after) < Open(rows) && OthersReady(rows, after, id)
  {
    FoldKeepsSettling(EdgesOf(rows), Good(env, cap), replaced, BoardOf(rows), id);
    hide Settling;
    hide IsReady;
    hide Unfinished;
    hide OnlyFates;
    FewerOpen(BoardOf(rows), BoardOf(after), id);
    ReadyRowsKept(rows, after, id);
  }

  lemma LostStep(env: Env, cap: nat, rows: Rows, after: Rows, replaced: set<TaskId>, id: TaskId)
    requires Closed(EdgesOf(rows)) && Settling(EdgesOf(rows), Good(env, cap), replaced, BoardOf(rows))
    requires IsReady(EdgesOf(rows), BoardOf(rows), id) && id !in Good(env, cap)
    requires EdgesOf(after) == EdgesOf(rows) && BoardOf(after) == BoardOf(rows)[id := Skipped]
      && OnlyFates(rows, after, id)
    ensures Open(after) < Open(rows) && OthersReady(rows, after, id)
  {
    SetAsideKeepsSettling(EdgesOf(rows), Good(env, cap), replaced, BoardOf(rows), id, Skipped);
    hide Settling;
    hide IsReady;
    hide Unfinished;
    hide OnlyFates;
    FewerOpen(BoardOf(rows), BoardOf(after), id);
    ReadyRowsKept(rows, after, id);
  }

  lemma SplitOpens(rows: Rows, order: seq<TaskId>, res: WaveResult, n: nat)
    requires SplitShape(rows, order, res, n) && res.id in rows && res.id in res.rows
    requires !rows[res.id].status.Terminal() && res.rows[res.id].status.Terminal()
    ensures res.id in Unfinished(BoardOf(rows))
    ensures Unfinished(BoardOf(res.rows)) <= Unfinished(BoardOf(rows)) - {res.id} + {TaskId(n), TaskId(n + 1)}
  {
    hide SplitShape;
    forall t | t in Unfinished(BoardOf(res.rows))
      ensures t in Unfinished(BoardOf(rows)) - {res.id} + {TaskId(n), TaskId(n + 1)}
    {
      if t in rows {
        SplitRow(rows, order, res, n, t);
      } else {
        SplitPart(rows, order, res, n, t);
      }
    }
  }

  lemma SplitStep(rows: Rows, order: seq<TaskId>, res: WaveResult, n: nat)
    requires SplitShape(rows, order, res, n) && res.id in rows && res.id in res.rows
    requires !rows[res.id].status.Terminal() && res.rows[res.id].status.Terminal()
    ensures Open(res.rows) <= Open(rows) + 1
  {
    hide *;
    SplitOpens(rows, order, res, n);
    OneForTwo(Unfinished(BoardOf(rows)), Unfinished(BoardOf(res.rows)), res.id, TaskId(n), TaskId(n + 1));
    OpenIs(rows);
    OpenIs(res.rows);
  }

  lemma OpenIs(rows: Rows)
    ensures Open(rows) == |Unfinished(BoardOf(rows))|
  {
  }

  lemma OneForTwo(a: set<TaskId>, b: set<TaskId>, w: TaskId, one: TaskId, two: TaskId)
    requires w in a && b <= a - {w} + {one, two}
    ensures |b| <= |a| + 1
  {
    CardinalityAtMost(b, a - {w} + {one, two});
    assert |a - {w}| == |a| - 1;
    UnionFits(a - {w}, {one, two});
  }

  lemma UnionFits(a: set<TaskId>, b: set<TaskId>)
    ensures |a + b| <= |a| + |b|
  {
    assert a + b == a + (b - a);
    CardinalityAtMost(b - a, b);
  }

  lemma ReadyIsOpen(rows: Rows, id: TaskId)
    requires id in rows && IsReady(EdgesOf(rows), BoardOf(rows), id)
    ensures !rows[id].status.Terminal()
  {
    assert Startable(BoardOf(rows)[id]);
  }

  /** Folding one result in keeps the plan under way. Each result costs one unfinished task;
      only an honoured re-planning adds tasks, two of them, and it adds them once per task. */
  lemma FoldStep(env: Env, cap: nat, rows: Rows, order: seq<TaskId>, next: nat, original: set<TaskId>,
                 replaced: set<TaskId>, honoured: set<TaskId>,
                 rows0: Rows, order0: seq<TaskId>, res: WaveResult, n: nat, alone: bool)
    returns (replaced': set<TaskId>, honoured': set<TaskId>)
    requires UnderWay(env, cap, rows, order, next, original, replaced, honoured)
    requires Awaiting(env, cap, rows, order, next, rows0, order0, res, n, alone)
    ensures UnderWay(env, cap, FoldRows(rows, res, alone), FoldOrder(rows, order, res, alone), next,
                     original, replaced', honoured')
    ensures AttemptsKept(rows, FoldRows(rows, res, alone), res)
    ensures replaced' == (if Honours(env, cap, rows, res, alone) || LosesParts(env, cap, rows, res)
                          then replaced + {res.id} else replaced)
    ensures replaced <= replaced' && honoured <= honoured'
    ensures Open(FoldRows(rows, res, alone)) + 1 + 2 * |honoured| <= Open(rows) + 2 * |honoured'|
    ensures !alone ==> honoured' == honoured && OthersReady(rows, FoldRows(rows, res, alone), res.id)
    ensures rows.Keys <= FoldRows(rows, res, alone).Keys
    ensures honoured' == honoured ==> EdgesOf(FoldRows(rows, res, alone)) == EdgesOf(rows)
  {
    hide *;
    AwaitingCourse(env, cap, rows, order, next, original, replaced, honoured, rows0, order0, res, n, alone);
    AwaitingVerdict(env, cap, rows, order, next, original, replaced, honoured, rows0, order0, res, n, alone);
    UnderWayFacts(env, cap, rows, order, next, original, replaced, honoured);
    if Honours(env, cap, rows, res, alone) {
      FactsOfHonours(env, cap, rows, order, next, rows0, order0, res, n, alone);
      FoldSplit(env, cap, rows, order, next, original, replaced, honoured, rows0, order0, res, n, alone);
      SplitOnBoard(env, cap, rows, order, res, n);
      EndsTerminal(res.rows[res.id].status);
      ReadyIsOpen(rows, res.id);
      SplitStep(rows, order, res, n);
      replaced', honoured' := replaced + {res.id}, honoured + {res.id};
      HonouredIsReplaced(env, cap, rows, order, next, original, replaced, honoured);
      assert |honoured'| == |honoured| + 1;
    } else if LosesParts(env, cap, rows, res) {
      FoldLost(env, cap, rows, order, next, original, replaced, honoured, rows0, order0, res, n, alone);
      FactsOfLost(env, cap, rows, res);
      PlainRowsFacts(rows, res);
      LostStep(env, cap, rows, PlainRows(rows, res), replaced, res.id);
      replaced', honoured' := replaced + {res.id}, honoured;
    } else {
      FoldPlain(env, cap, rows, order, next, original, replaced, honoured, rows0, order0, res, n, alone);
      PlainRowsFacts(rows, res);
      PlainStep(env, cap, rows, PlainRows(rows, res), replaced, res.id);
      FoldedEdges(env, cap, rows, PlainRows(rows, res), res.id);
      replaced', honoured' := replaced, honoured;
    }
    OnlyGrows(rows, FoldRows(rows, res, alone), res);
  }

  lemma OnlyGrows(rows: Rows, after: Rows, res: WaveResult)
    requires AttemptsKept(rows, after, res)
    ensures rows.Keys <= after.Keys
  {
  }

  lemma HonouredIsReplaced(env: Env, cap: nat, rows: Rows, order: seq<TaskId>, next: nat,
                           original: set<TaskId>, replaced: set<TaskId>, honoured: set<TaskId>)
    requires UnderWay(env, cap, rows, order, next, original, replaced, honoured)
    ensures honoured <= replaced
  {
  }
}
