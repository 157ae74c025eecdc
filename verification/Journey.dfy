/** One task at a time through a plan: what each folded result does to the order in which tasks
    were run, to those left waiting, and to what still has to be run. */
module Journeys {
  import opened Dag
  import opened Waves
  import opened Tasks
  import opened Attempts
  import opened Replanning
  import opened Runs
  import opened Endings

  // ------------------------------------------------------- the order of execution

  /** `done` lists the tasks that ran, each once and after everything it waits for; they are
      finished, and nothing else is completed. */
  ghost predicate RanInOrder(e: Edges, b: Board, done: seq<TaskId>) {
    && Topological(e, done)
    && (forall t :: t in b && b[t].Completed? ==> t in done)
    && (forall t :: t in done ==> t in b && b[t].Terminal())
  }

  /** Nothing but `w` and tasks nobody has finished changed, and nothing but `w` was completed. */
  ghost predicate OnlyMoves(b: Board, b': Board, w: TaskId) {
    && w in b' && b'[w].Terminal()
    && (forall t :: t in b && b[t].Terminal() ==> t in b' && b'[t] == b[t])
    && (forall t :: t in b' && b'[t].Completed? && t != w ==> t in b && b[t].Completed?)
  }

  lemma RunInOrderGrows(e: Edges, e': Edges, b: Board, b': Board, done: seq<TaskId>, w: TaskId)
    requires RanInOrder(e, b, done) && IsReady(e, b, w) && Extends(e, e') && OnlyMoves(b, b', w)
    ensures RanInOrder(e', b', done + [w]) && w !in done
  {
    var more := done + [w];
    assert w !in done by {
      assert !b[w].Terminal();
    }
    forall i, d | 0 <= i < |more| && d in e'[more[i]]
      ensures Earlier(more, i, d)
    {
      if i < |done| {
        assert Earlier(done, i, d);
        var k :| 0 <= k < i && done[k] == d;
        assert more[k] == d;
      } else {
        assert d in e[w] && d in done;
        var k :| 0 <= k < |done| && done[k] == d;
        assert more[k] == d;
      }
    }
  }

  // ---------------------------------------------------------------- three moves

  /** The result moved the board as the oracle says. */
  ghost predicate PlainMove(e: Edges, b: Board, good: iset<TaskId>, w: TaskId, e': Edges, b': Board) {
    w in b && e' == e && b' == FoldOne(e, b, good, w)
  }

  /** A split in company: the task is skipped, its parts are lost. */
  ghost predicate LostMove(e: Edges, b: Board, w: TaskId, e': Edges, b': Board) {
    e' == e && b' == b[w := Skipped]
  }

  /** A split alone: the task is set aside, its parts join. */
  ghost predicate SplitMove(e: Edges, b: Board, w: TaskId, n: nat, e': Edges, b': Board) {
    var one, two := TaskId(n), TaskId(n + 1);
    && w in e && one !in e && two !in e
    && w in b' && EndsWell(b'[w])
    && e' == SplitEdges(e, w, one, two)
    && b' == b[w := b'[w]][one := Pending][two := Pending]
  }

  lemma PlainOnlyMoves(e: Edges, b: Board, good: iset<TaskId>, w: TaskId, e': Edges, b': Board)
    requires PlainMove(e, b, good, w, e', b') && IsReady(e, b, w)
    ensures OnlyMoves(b, b', w) && Extends(e, e')
  {
    hide DoomPath;
    FoldOneIsWave(e, b, good, w);
    WaveProgress(e, good, b, {w});
  }

  lemma LostOnlyMoves(e: Edges, b: Board, w: TaskId, e': Edges, b': Board)
    requires LostMove(e, b, w, e', b') && IsReady(e, b, w)
    ensures OnlyMoves(b, b', w) && Extends(e, e')
  {
  }

  lemma SplitOnlyMoves(e: Edges, b: Board, w: TaskId, n: nat, e': Edges, b': Board)
    requires SplitMove(e, b, w, n, e', b') && IsReady(e, b, w) && b.Keys == e.Keys
    ensures OnlyMoves(b, b', w) && Extends(e, e')
  {
  }

  // ---------------------------------------------------- the tasks left waiting stay

  lemma PathsStay(e0: Edges, e: Edges, p: seq<TaskId>)
    requires Closed(e0) && Extends(e0, e) && IsPath(e, p) && p[0] in e0
    ensures IsPath(e0, p)
  {
    PathStaysInside(e0, e, p);
  }

  /** A failure that is no split dooms nobody who is left waiting: those have nothing like it behind them. */
  lemma LeftAreSpared(e0: Edges, e: Edges, good: iset<TaskId>, over: set<TaskId>, b: Board, w: TaskId, t: TaskId)
    requires Closed(e0) && Closed(e) && Extends(e0, e) && w in e && w !in good && !Hopeless(e, good, w) && w !in over
    requires LeftWaiting(e0, good, over, t)
    ensures !Doomed(e, b, {w}, t)
  {
    if p :| DoomPath(e, b, {w}, p) && p[0] == t {
      assert p[|p| - 2 + 1] in e[p[|p| - 2]];
      assert IsPath(e, p);
      PathsStay(e0, e, p);
      HopelessStays(e0, e, good, w);
      assert Fails(e0, good, over, w);
      assert false;
    }
  }

  lemma ReadyIsNotLeft(e0: Edges, e: Edges, good: iset<TaskId>, over: set<TaskId>, w: TaskId)
    requires Closed(e0) && Extends(e0, e) && !Hopeless(e, good, w)
    ensures w !in LeftBehind(e0, good, over)
  {
    if w in e0 {
      HopelessStays(e0, e, good, w);
    }
  }

  lemma PlainLeaves(e0: Edges, e: Edges, good: iset<TaskId>, over: set<TaskId>, b: Board, w: TaskId, e': Edges,
                    b': Board)
    requires Closed(e0) && Closed(e) && Extends(e0, e) && PlainMove(e, b, good, w, e', b')
    requires w in e && !Hopeless(e, good, w) && (w !in good ==> w !in over)
    requires LeftBehind(e0, good, over) <= Unfinished(b)
    ensures LeftBehind(e0, good, over) <= Unfinished(b')
  {
    ReadyIsNotLeft(e0, e, good, over, w);
    forall t | t in LeftBehind(e0, good, over)
      ensures t in Unfinished(b')
    {
      if w !in good {
        LeftAreSpared(e0, e, good, over, b[w := Failed], w, t);
      }
    }
  }

  lemma AsideLeaves(e0: Edges, e: Edges, good: iset<TaskId>, over: set<TaskId>, b: Board, w: TaskId, b': Board)
    requires Closed(e0) && Extends(e0, e) && !Hopeless(e, good, w)
    requires forall t :: t in b && t != w ==> t in b' && b'[t] == b[t]
    requires LeftBehind(e0, good, over) <= Unfinished(b)
    ensures LeftBehind(e0, good, over) <= Unfinished(b')
  {
    ReadyIsNotLeft(e0, e, good, over, w);
  }

  // ----------------------------------------------------------- what is still to run

  /** Of the next `k` splits, how many first parts succeed: the parts' ids are drawn in order. */
  ghost function GoodParts(good: iset<TaskId>, next: nat, k: nat): nat
    decreases k
  {
    if k == 0 then 0 else (if TaskId(next) in good then 1 else 0) + GoodParts(good, next + 2, k - 1)
  }

  ghost function ToSplit(e: Edges, good: iset<TaskId>, over: set<TaskId>, b: Board): set<TaskId> {
    Alive(e, good, b) * over
  }

  /** How many more tasks run, one at a time: those alive, and for each that is split its first
      part, and its second one if the first succeeds. */
  ghost function Remaining(e: Edges, good: iset<TaskId>, over: set<TaskId>, b: Board, next: nat): nat {
    var k := |ToSplit(e, good, over, b)|;
    |Alive(e, good, b)| + k + GoodParts(good, next, k)
  }

  lemma AliveAfterPlain(e: Edges, good: iset<TaskId>, b: Board, w: TaskId, e': Edges, b': Board)
    requires Closed(e) && PlainMove(e, b, good, w, e', b')
    ensures Alive(e', good, b') == Alive(e, good, b) - {w}
  {
    forall t | t in Alive(e, good, b) && t != w
      ensures t in Alive(e', good, b')
    {
      if w !in good && Doomed(e, b[w := Failed], {w}, t) {
        DoomedIsHopeless(e, good, b[w := Failed], {w}, t);
      }
    }
  }

  lemma PlainIsOneLess(e: Edges, good: iset<TaskId>, over: set<TaskId>, b: Board, w: TaskId, e': Edges, b': Board,
                       next: nat)
    requires Closed(e) && PlainMove(e, b, good, w, e', b') && w in Alive(e, good, b) && w !in over
    ensures Remaining(e', good, over, b', next) + 1 == Remaining(e, good, over, b, next)
  {
    AliveAfterPlain(e, good, b, w, e', b');
    assert ToSplit(e', good, over, b') == ToSplit(e, good, over, b);
  }

  lemma AliveOfMore(e: Edges, good: iset<TaskId>, b: Board, w: TaskId, one: TaskId, two: TaskId, e': Edges, b': Board)
    requires b.Keys == e.Keys && one !in b && two !in b && one != two && w in b && w in b' && b'[w].Terminal()
    requires b' == b[w := b'[w]][one := Pending][two := Pending]
    requires forall t :: t in e ==> (Hopeless(e, good, t) <==> Hopeless(e', good, t))
    requires !Hopeless(e', good, one) && (Hopeless(e', good, two) <==> one !in good)
    ensures Alive(e', good, b') == Alive(e, good, b) - {w} + {one} + (if one in good then {two} else {})
  {
    hide Hopeless;
  }

  lemma AliveAfterSplit(e: Edges, good: iset<TaskId>, b: Board, w: TaskId, n: nat, e': Edges, b': Board)
    requires Closed(e) && b.Keys == e.Keys && SplitMove(e, b, w, n, e', b') && w in Alive(e, good, b)
    ensures var one, two := TaskId(n), TaskId(n + 1);
            Alive(e', good, b') == Alive(e, good, b) - {w} + {one} + (if one in good then {two} else {})
  {
    var one, two := TaskId(n), TaskId(n + 1);
    SplitExtends(e, w, one, two);
    PartsHope(e, good, w, one, two);
    forall t | t in e
      ensures Hopeless(e, good, t) <==> Hopeless(e', good, t)
    {
      HopelessStays(e, e', good, t);
    }
    hide Hopeless; hide Alive; hide SplitEdges; hide Closed;
    AliveOfMore(e, good, b, w, one, two, e', b');
  }

  lemma SplitIsOneLess(e: Edges, good: iset<TaskId>, over: set<TaskId>, b: Board, w: TaskId, n: nat, e': Edges,
                       b': Board)
    requires Closed(e) && b.Keys == e.Keys && SplitMove(e, b, w, n, e', b') && w in Alive(e, good, b)
    requires w in over && TaskId(n) !in over && TaskId(n + 1) !in over
    ensures Remaining(e', good, over, b', n + 2) + 1 == Remaining(e, good, over, b, n)
  {
    var one, two := TaskId(n), TaskId(n + 1);
    AliveAfterSplit(e, good, b, w, n, e', b');
    var alive, alive' := Alive(e, good, b), Alive(e', good, b');
    assert one !in alive && two !in alive;
    assert ToSplit(e', good, over, b') == ToSplit(e, good, over, b) - {w};
    assert |ToSplit(e', good, over, b')| == |ToSplit(e, good, over, b)| - 1;
    var extra: set<TaskId> := if one in good then {two} else {};
    assert |alive - {w} + {one}| == |alive|;
    assert |alive - {w} + {one} + extra| == |alive| + |extra|;
  }

  // ------------------------------------------------------ a folded result is a move

  /** The tasks of the first plan that are split once they run. */
  ghost function Over(env: Env, cap: nat, rows0: Rows): set<TaskId> {
    set t | t in rows0 && Overflows(env, cap, t) && rows0[t].parent.None?
  }

  ghost predicate SplitsNow(env: Env, cap: nat, rows: Rows, w: TaskId)
    requires w in rows
  {
    Splits(rows[w], RowCourse(env, cap, rows[w]))
  }

  /** What folding the result of `w` did to the plan and to the tasks set aside. */
  ghost predicate Moved(env: Env, cap: nat, rows: Rows, replaced: set<TaskId>, w: TaskId, n: nat, alone: bool,
                        after: Rows, replaced': set<TaskId>)
  {
    var e, b, e', b' := EdgesOf(rows), BoardOf(rows), EdgesOf(after), BoardOf(after);
    && w in rows && IsReady(e, b, w)
    && (forall t :: t in rows ==> t in after && after[t].parent == rows[t].parent)
    && (forall t :: t in after && t !in rows ==> after[t].parent.Some?)
    && if replaced' == replaced then
         && PlainMove(e, b, Good(env, cap), w, e', b')
         && (Overflows(env, cap, w) && rows[w].parent.None? ==> !alone && env.landing(w).Conflicting?)
         && (alone ==> !SplitsNow(env, cap, rows, w))
       else
         && replaced' == replaced + {w} && Overflows(env, cap, w) && rows[w].parent.None?
         && SplitsNow(env, cap, rows, w)
         && if alone then SplitMove(e, b, w, n, e', b') else LostMove(e, b, w, e', b')
  }

  lemma SplitIsMove(env: Env, cap: nat, rows: Rows, order: seq<TaskId>, res: WaveResult, n: nat)
    requires Ran(env, cap, rows, order, res, n) && Fresh(rows, n)
    requires Splits(rows[res.id], RowCourse(env, cap, rows[res.id]))
    ensures res.id in res.rows
    ensures SplitMove(EdgesOf(rows), BoardOf(rows), res.id, n, EdgesOf(res.rows), BoardOf(res.rows))
    ensures forall t :: t in rows ==> t in res.rows && res.rows[t].parent == rows[t].parent
    ensures forall t :: t in res.rows && t !in rows ==> res.rows[t].parent.Some?
  {
    SplitOnBoard(env, cap, rows, order, res, n);
    SplitHasShape(env, cap, rows, order, res, n);
    SameKeys(rows);
    BoardAt(res.rows, res.id);
    hide Ran; hide Splits; hide RowCourse; hide Fresh; hide EdgesOf; hide BoardOf;
    forall t | t in res.rows
      ensures if t in rows then res.rows[t].parent == rows[t].parent else res.rows[t].parent.Some?
    {
      if t in rows {
        SplitRow(rows, order, res, n, t);
      } else {
        SplitPart(rows, order, res, n, t);
      }
    }
  }

  lemma BoardAt(rows: Rows, id: TaskId)
    requires id in rows
    ensures id in BoardOf(rows) && BoardOf(rows)[id] == rows[id].status
  {
  }

  /** A split that is neither honoured nor lost had work that could not land, and company. */
  lemma PlainSplitConflicts(env: Env, cap: nat, rows: Rows, order: seq<TaskId>, next: nat,
                            rows0: Rows, order0: seq<TaskId>, res: WaveResult, n: nat, alone: bool)
    requires Awaiting(env, cap, rows, order, next, rows0, order0, res, n, alone)
    requires !Honours(env, cap, rows, res, alone) && !LosesParts(env, cap, rows, res)
    requires SplitsNow(env, cap, rows, res.id)
    ensures !alone && env.landing(res.id).Conflicting?
  {
    hide IsReady;
    hide RowCourse;
  }

  lemma FoldMoves(env: Env, cap: nat, rows: Rows, order: seq<TaskId>, next: nat, original: set<TaskId>,
                  replaced: set<TaskId>, honoured: set<TaskId>,
                  rows0: Rows, order0: seq<TaskId>, res: WaveResult, n: nat, alone: bool, replaced': set<TaskId>)
    requires UnderWay(env, cap, rows, order, next, original, replaced, honoured)
    requires Awaiting(env, cap, rows, order, next, rows0, order0, res, n, alone)
    requires replaced' == (if Honours(env, cap, rows, res, alone) || LosesParts(env, cap, rows, res)
                           then replaced + {res.id} else replaced)
    ensures Moved(env, cap, rows, replaced, res.id, n, alone, FoldRows(rows, res, alone), replaced')
  {
    hide *;
    AwaitingCourse(env, cap, rows, order, next, original, replaced, honoured, rows0, order0, res, n, alone);
    AwaitingVerdict(env, cap, rows, order, next, original, replaced, honoured, rows0, order0, res, n, alone);
    UnderWayFacts(env, cap, rows, order, next, original, replaced, honoured);
    ReadyIsNotReplaced(EdgesOf(rows), Good(env, cap), replaced, BoardOf(rows), res.id);
    OverflowsWhenSplit(env, cap, rows, res.id);
    if Honours(env, cap, rows, res, alone) {
      FactsOfHonours(env, cap, rows, order, next, rows0, order0, res, n, alone);
      FoldSplit(env, cap, rows, order, next, original, replaced, honoured, rows0, order0, res, n, alone);
      SplitIsMove(env, cap, rows, order, res, n);
      NowSplits(env, cap, rows, res.id);
      MovedBySplit(env, cap, rows, replaced, res, n);
    } else {
      FoldsPlainly(env, cap, rows, order, res, alone);
      PlainRowsFacts(rows, res);
      ParentsOfFates(rows, PlainRows(rows, res), res.id);
      if LosesParts(env, cap, rows, res) {
        FoldLost(env, cap, rows, order, next, original, replaced, honoured, rows0, order0, res, n, alone);
        LostInCompany(env, cap, rows, res, alone);
        LossIsMove(EdgesOf(rows), BoardOf(rows), res.id, BoardOf(PlainRows(rows, res)));
        MovedByLoss(env, cap, rows, replaced, res.id, n, PlainRows(rows, res));
      } else {
        FoldPlain(env, cap, rows, order, next, original, replaced, honoured, rows0, order0, res, n, alone);
        if SplitsNow(env, cap, rows, res.id) {
          PlainSplitConflicts(env, cap, rows, order, next, rows0, order0, res, n, alone);
        }
        MovedPlainly(env, cap, rows, replaced, res.id, n, alone, PlainRows(rows, res));
      }
    }
  }

  lemma ParentsOfFates(rows: Rows, after: Rows, id: TaskId)
    requires OnlyFates(rows, after, id)
    ensures after.Keys == rows.Keys && forall t :: t in rows ==> after[t].parent == rows[t].parent
  {
  }

  lemma OverflowsWhenSplit(env: Env, cap: nat, rows: Rows, w: TaskId)
    requires w in rows && rows[w].id == w && RowCourse(env, cap, rows[w]) == CourseOf(env, cap, w, 0, None)
    ensures SplitsNow(env, cap, rows, w) <==> Overflows(env, cap, w) && rows[w].parent.None?
  {
    hide CourseOf;
    hide RowCourse;
  }

  lemma NowSplits(env: Env, cap: nat, rows: Rows, w: TaskId)
    requires w in rows && Splits(rows[w], RowCourse(env, cap, rows[w]))
    ensures SplitsNow(env, cap, rows, w)
  {
  }

  lemma LossIsMove(e: Edges, b: Board, w: TaskId, b': Board)
    requires b' == b[w := Skipped]
    ensures LostMove(e, b, w, e, b')
  {
  }

  lemma LostInCompany(env: Env, cap: nat, rows: Rows, res: WaveResult, alone: bool)
    requires LosesParts(env, cap, rows, res) && !Honours(env, cap, rows, res, alone)
    ensures !alone && res.id in rows && SplitsNow(env, cap, rows, res.id)
  {
    hide RowCourse;
  }

  lemma MovedPlainly(env: Env, cap: nat, rows: Rows, replaced: set<TaskId>, w: TaskId, n: nat, alone: bool, after: Rows)
    requires w in rows && IsReady(EdgesOf(rows), BoardOf(rows), w) && BoardFolded(env, cap, rows, after, w)
    requires after.Keys == rows.Keys && forall t :: t in rows ==> after[t].parent == rows[t].parent
    requires SplitsNow(env, cap, rows, w) <==> Overflows(env, cap, w) && rows[w].parent.None?
    requires SplitsNow(env, cap, rows, w) ==> !alone && env.landing(w).Conflicting?
    ensures Moved(env, cap, rows, replaced, w, n, alone, after, replaced)
  {
    hide IsReady; hide FoldOne; hide EdgesOf; hide SplitsNow; hide Overflows; hide Good;
    BoardAt(rows, w);
  }

  lemma MovedByLoss(env: Env, cap: nat, rows: Rows, replaced: set<TaskId>, w: TaskId, n: nat, after: Rows)
    requires w in rows && w !in replaced && IsReady(EdgesOf(rows), BoardOf(rows), w)
    requires LostMove(EdgesOf(rows), BoardOf(rows), w, EdgesOf(after), BoardOf(after))
    requires after.Keys == rows.Keys && forall t :: t in rows ==> after[t].parent == rows[t].parent
    requires SplitsNow(env, cap, rows, w) && Overflows(env, cap, w) && rows[w].parent.None?
    ensures Moved(env, cap, rows, replaced, w, n, false, after, replaced + {w})
  {
    hide IsReady; hide EdgesOf; hide BoardOf; hide SplitsNow; hide Overflows; hide Good; hide LostMove;
    assert w in replaced + {w};
  }

  lemma MovedBySplit(env: Env, cap: nat, rows: Rows, replaced: set<TaskId>, res: WaveResult, n: nat)
    requires res.id in rows && res.id !in replaced && IsReady(EdgesOf(rows), BoardOf(rows), res.id)
    requires SplitMove(EdgesOf(rows), BoardOf(rows), res.id, n, EdgesOf(res.rows), BoardOf(res.rows))
    requires forall t :: t in rows ==> t in res.rows && res.rows[t].parent == rows[t].parent
    requires forall t :: t in res.rows && t !in rows ==> res.rows[t].parent.Some?
    requires SplitsNow(env, cap, rows, res.id) && Overflows(env, cap, res.id) && rows[res.id].parent.None?
    ensures Moved(env, cap, rows, replaced, res.id, n, true, res.rows, replaced + {res.id})
  {
    hide IsReady; hide EdgesOf; hide BoardOf; hide SplitsNow; hide Overflows; hide Good; hide SplitMove;
    assert res.id in replaced + {res.id};
  }

  // ------------------------------------------------------------- what a run keeps

  /** What holds of a run against the plan it started with: tasks ran in order, parts follow
      their task, only tasks that got to run were set aside, and, where it is decided which
      failures are splits, whoever is left waiting is still unfinished. */
  ghost predicate LivedOn(e0: Edges, e: Edges, good: iset<TaskId>, over: set<TaskId>, b: Board,
                          replaced: set<TaskId>, done: seq<TaskId>, decided: bool)
  {
    && Closed(e0) && Acyclic(e0)
    && PartsFollow(e0, e, good)
    && (forall t :: t in replaced ==> t in e0 && t in over && !Hopeless(e0, good, t))
    && RanInOrder(e, b, done)
    && (decided ==> LeftBehind(e0, good, over) <= Unfinished(b))
  }

  ghost predicate ParentsKept(rows0: Rows, rows: Rows) {
    forall t :: t in rows ==> (rows[t].parent.None? <==> t in rows0 && rows0[t].parent.None?)
  }

  ghost predicate Lived(env: Env, cap: nat, rows0: Rows, rows: Rows, replaced: set<TaskId>, done: seq<TaskId>,
                        decided: bool)
  {
    && ParentsKept(rows0, rows)
    && LivedOn(EdgesOf(rows0), EdgesOf(rows), Good(env, cap), Over(env, cap, rows0), BoardOf(rows), replaced, done,
               decided)
  }

  lemma PlainLives(e0: Edges, e: Edges, good: iset<TaskId>, over: set<TaskId>, b: Board, replaced: set<TaskId>,
                   done: seq<TaskId>, decided: bool, w: TaskId, e': Edges, b': Board)
    requires LivedOn(e0, e, good, over, b, replaced, done, decided) && Closed(e)
    requires IsReady(e, b, w) && !Hopeless(e, good, w) && PlainMove(e, b, good, w, e', b')
    requires decided && w !in good ==> w !in over
    ensures LivedOn(e0, e', good, over, b', replaced, done + [w], decided) && w !in done
  {
    PlainOnlyMoves(e, b, good, w, e', b');
    RunInOrderGrows(e, e', b, b', done, w);
    hide RanInOrder; hide Hopeless; hide PartFollows; hide Unfinished; hide LeftBehind; hide OnlyMoves;
    if decided {
      PlainLeaves(e0, e, good, over, b, w, e', b');
    }
    hide IsReady; hide PlainMove;
    PlainSame(e, b, good, w, e', b');
  }

  lemma LostLives(e0: Edges, e: Edges, good: iset<TaskId>, over: set<TaskId>, b: Board, replaced: set<TaskId>,
                  done: seq<TaskId>, decided: bool, w: TaskId, e': Edges, b': Board)
    requires LivedOn(e0, e, good, over, b, replaced, done, decided) && Closed(e)
    requires IsReady(e, b, w) && !Hopeless(e, good, w) && LostMove(e, b, w, e', b') && w in over && w in e0
    ensures LivedOn(e0, e', good, over, b', replaced + {w}, done + [w], decided) && w !in done
  {
    LostOnlyMoves(e, b, w, e', b');
    RunInOrderGrows(e, e', b, b', done, w);
    ExtendsKeeps(e0, e, good, w);
    hide RanInOrder; hide Hopeless; hide PartFollows; hide Unfinished; hide LeftBehind; hide OnlyMoves; hide IsReady;
    if decided {
      AsideLeaves(e0, e, good, over, b, w, b');
    }
  }

  lemma LivedParts(e0: Edges, e: Edges, good: iset<TaskId>, over: set<TaskId>, b: Board, replaced: set<TaskId>,
                   done: seq<TaskId>, decided: bool)
    ensures LivedOn(e0, e, good, over, b, replaced, done, decided) <==>
              && Closed(e0) && Acyclic(e0) && PartsFollow(e0, e, good)
              && (forall t :: t in replaced ==> t in e0 && t in over && !Hopeless(e0, good, t))
              && RanInOrder(e, b, done) && (decided ==> LeftBehind(e0, good, over) <= Unfinished(b))
  {
    hide Acyclic; hide Closed; hide PartsFollow; hide RanInOrder; hide LeftBehind; hide Unfinished; hide Hopeless;
  }

  lemma SplitLives(e0: Edges, e: Edges, good: iset<TaskId>, over: set<TaskId>, b: Board, replaced: set<TaskId>,
                   done: seq<TaskId>, decided: bool, w: TaskId, n: nat, e': Edges, b': Board)
    requires LivedOn(e0, e, good, over, b, replaced, done, decided) && Closed(e) && b.Keys == e.Keys
    requires IsReady(e, b, w) && !Hopeless(e, good, w) && SplitMove(e, b, w, n, e', b') && w in over && w in e0
    ensures LivedOn(e0, e', good, over, b', replaced + {w}, done + [w], decided) && w !in done
  {
    hide *;
    LivedParts(e0, e, good, over, b, replaced, done, decided);
    LivedParts(e0, e', good, over, b', replaced + {w}, done + [w], decided);
    SplitOnlyMoves(e, b, w, n, e', b');
    SplitSame(e, b, w, n, e', b');
    TwoSerials(n);
    RunInOrderGrows(e, e', b, b', done, w);
    ExtendsKeeps(e0, e, good, w);
    SplitKeepsParts(e0, e, good, w, TaskId(n), TaskId(n + 1));
    if decided {
      AsideLeaves(e0, e, good, over, b, w, b');
    }
  }

  lemma TwoSerials(n: nat)
    ensures TaskId(n) != TaskId(n + 1)
  {
  }

  /** Whether a failing task is split never hangs on what else ran in its wave. */
  ghost predicate Decided(env: Env, cap: nat, rows0: Rows, parallelism: nat) {
    parallelism == 1 || NoneConflict(env, cap, rows0)
  }

  /** The isolated work of a task that is split always lands. */
  ghost predicate NoneConflict(env: Env, cap: nat, rows0: Rows) {
    forall t :: t in Over(env, cap, rows0) ==> !env.landing(t).Conflicting?
  }

  lemma LivedAtStart(env: Env, cap: nat, rows0: Rows, decided: bool)
    requires Closed(EdgesOf(rows0)) && Acyclic(EdgesOf(rows0))
    requires forall t :: t in rows0 ==> rows0[t].status.Pending?
    ensures Lived(env, cap, rows0, rows0, {}, [], decided)
  {
  }

  lemma OverIs(env: Env, cap: nat, rows0: Rows, rows: Rows, w: TaskId)
    requires ParentsKept(rows0, rows) && w in rows
    ensures Overflows(env, cap, w) && rows[w].parent.None? <==> w in Over(env, cap, rows0)
  {
    hide Overflows;
  }

  lemma MoveKeepsLived(env: Env, cap: nat, rows0: Rows, rows: Rows, replaced: set<TaskId>, done: seq<TaskId>,
                       decided: bool, w: TaskId, n: nat, alone: bool, after: Rows, replaced': set<TaskId>)
    requires Lived(env, cap, rows0, rows, replaced, done, decided)
    requires Closed(EdgesOf(rows)) && Settling(EdgesOf(rows), Good(env, cap), replaced, BoardOf(rows))
    requires Moved(env, cap, rows, replaced, w, n, alone, after, replaced')
    requires decided ==> alone || NoneConflict(env, cap, rows0)
    ensures Lived(env, cap, rows0, after, replaced', done + [w], decided)
    ensures w !in done
  {
    var e0, e, b, good, over := EdgesOf(rows0), EdgesOf(rows), BoardOf(rows), Good(env, cap), Over(env, cap, rows0);
    var e', b' := EdgesOf(after), BoardOf(after);
    ReadyIsNotHopeless(e, good, replaced, b, w);
    OverIs(env, cap, rows0, rows, w);
    SameKeys(rows);
    SameKeys(rows0);
    LivedExtends(env, cap, rows0, rows, replaced, done, decided);
    MovedParents(env, cap, rows, replaced, w, n, alone, after, replaced');
    ParentsStay(rows0, rows, after);
    OverIsInside(env, cap, rows0);
    hide Hopeless; hide Settling; hide IsReady; hide EdgesOf; hide BoardOf; hide Good; hide Over; hide Overflows;
    hide LivedOn; hide PlainMove; hide SplitMove; hide LostMove; hide SplitsNow; hide ParentsKept;
    if replaced' == replaced {
      PlainLives(e0, e, good, over, b, replaced, done, decided, w, e', b');
    } else if alone {
      SplitLives(e0, e, good, over, b, replaced, done, decided, w, n, e', b');
    } else {
      LostLives(e0, e, good, over, b, replaced, done, decided, w, e', b');
    }
  }

  lemma ParentsStay(rows0: Rows, rows: Rows, after: Rows)
    requires ParentsKept(rows0, rows) && rows0.Keys <= rows.Keys
    requires forall t :: t in rows ==> t in after && after[t].parent == rows[t].parent
    requires forall t :: t in after && t !in rows ==> after[t].parent.Some?
    ensures ParentsKept(rows0, after)
  {
  }

  lemma MovedParents(env: Env, cap: nat, rows: Rows, replaced: set<TaskId>, w: TaskId, n: nat, alone: bool,
                     after: Rows, replaced': set<TaskId>)
    requires Moved(env, cap, rows, replaced, w, n, alone, after, replaced')
    ensures forall t :: t in rows ==> t in after && after[t].parent == rows[t].parent
    ensures forall t :: t in after && t !in rows ==> after[t].parent.Some?
  {
    hide IsReady; hide PlainMove; hide SplitMove; hide LostMove; hide SplitsNow; hide Overflows; hide EdgesOf;
    hide BoardOf;
  }

  lemma LivedExtends(env: Env, cap: nat, rows0: Rows, rows: Rows, replaced: set<TaskId>, done: seq<TaskId>,
                     decided: bool)
    requires Lived(env, cap, rows0, rows, replaced, done, decided)
    ensures rows0.Keys <= rows.Keys && Extends(EdgesOf(rows0), EdgesOf(rows))
  {
    hide RanInOrder; hide LeftBehind; hide Hopeless; hide PartFollows; hide Good; hide Over;
    assert forall t :: t in rows0 ==> t in EdgesOf(rows0);
  }

  lemma ExtendsKeeps(e0: Edges, e: Edges, good: iset<TaskId>, w: TaskId)
    requires Closed(e0) && PartsFollow(e0, e, good) && !Hopeless(e, good, w)
    ensures Extends(e0, e) && (w in e0 ==> !Hopeless(e0, good, w))
  {
    if w in e0 {
      HopelessStays(e0, e, good, w);
    }
  }

  lemma PlainSame(e: Edges, b: Board, good: iset<TaskId>, w: TaskId, e': Edges, b': Board)
    requires PlainMove(e, b, good, w, e', b')
    ensures e' == e && w in b
  {
  }

  lemma SplitSame(e: Edges, b: Board, w: TaskId, n: nat, e': Edges, b': Board)
    requires SplitMove(e, b, w, n, e', b') && b.Keys == e.Keys
    ensures w in e && TaskId(n) !in e && TaskId(n + 1) !in e && e' == SplitEdges(e, w, TaskId(n), TaskId(n + 1))
    ensures forall t :: t in b && t != w ==> t in b' && b'[t] == b[t]
  {
  }

  /** One task at a time, each pass leaves one less to run. */
  lemma MoveIsOneLess(env: Env, cap: nat, rows0: Rows, rows: Rows, replaced: set<TaskId>, done: seq<TaskId>,
                      decided: bool, w: TaskId, n: nat, after: Rows, replaced': set<TaskId>)
    requires Lived(env, cap, rows0, rows, replaced, done, decided)
    requires Closed(EdgesOf(rows)) && Settling(EdgesOf(rows), Good(env, cap), replaced, BoardOf(rows))
    requires Moved(env, cap, rows, replaced, w, n, true, after, replaced')
    ensures w in rows
    ensures var over, good := Over(env, cap, rows0), Good(env, cap);
            var next := if SplitsNow(env, cap, rows, w) then n + 2 else n;
            Remaining(EdgesOf(after), good, over, BoardOf(after), next) + 1
              == Remaining(EdgesOf(rows), good, over, BoardOf(rows), n)
  {
    var e, b, good, over := EdgesOf(rows), BoardOf(rows), Good(env, cap), Over(env, cap, rows0);
    var e', b' := EdgesOf(after), BoardOf(after);
    ReadyIsAlive(e, good, replaced, b, w);
    OverIs(env, cap, rows0, rows, w);
    SameKeys(rows);
    OverIsInside(env, cap, rows0);
    assert forall t :: t in EdgesOf(rows0) ==> t in e;
    hide Hopeless; hide Settling; hide IsReady; hide EdgesOf; hide BoardOf; hide Good; hide Over; hide Overflows;
    hide PartFollows; hide LeftBehind; hide Unfinished; hide RanInOrder; hide Topological; hide PlainMove;
    hide SplitMove;
    hide SplitsNow; hide Remaining; hide Alive;
    if replaced' == replaced {
      PlainIsOneLess(e, good, over, b, w, e', b', n);
    } else {
      SplitSame(e, b, w, n, e', b');
      SplitIsOneLess(e, good, over, b, w, n, e', b');
    }
  }

  lemma OverIsInside(env: Env, cap: nat, rows0: Rows)
    ensures forall t :: t in Over(env, cap, rows0) ==> t in EdgesOf(rows0)
  {
    hide Overflows;
  }
}
