/** Skipping everything that waits for a failed task. */
module Cascades {
  import opened Dag
  import opened Waves
  import opened Tasks

  function SkipRows(rows: Rows, ts: set<TaskId>): Rows {
    map t | t in rows :: if t in ts then rows[t].(status := Skipped) else rows[t]
  }

  lemma SkipRowsIsSkip(rows: Rows, ts: set<TaskId>)
    ensures EdgesOf(SkipRows(rows, ts)) == EdgesOf(rows)
    ensures BoardOf(SkipRows(rows, ts)) == Skip(BoardOf(rows), ts)
  {
  }

  /** Where a cascade stands: what was skipped so far is doomed, and nothing else has changed. */
  ghost predicate Cascading(rows: Rows, failed: TaskId, now: Rows, frontier: set<TaskId>, skipped: seq<TaskId>) {
    && NoRepeats(skipped)
    && (forall t :: t in skipped ==> t in rows && Doomed(EdgesOf(rows), BoardOf(rows), {failed}, t))
    && frontier == {failed} + ToSet(skipped)
    && now == SkipRows(rows, ToSet(skipped))
    && (forall id :: id in rows ==> rows[id].id == id)
  }

  ghost function WaitingOn(rows: Rows, frontier: set<TaskId>): set<TaskId> {
    set t | t in rows && !rows[t].status.Terminal() && exists d :: d in rows[t].spec.dependencies && d in frontier
  }

  /** Members of `left` are doomed and not yet skipped. */
  ghost predicate AllDoomed(rows: Rows, failed: TaskId, left: set<TaskId>, skipped: seq<TaskId>) {
    forall t :: t in left ==> t in rows && t !in skipped && Doomed(EdgesOf(rows), BoardOf(rows), {failed}, t)
  }

  lemma CascadeStarts(rows: Rows, failed: TaskId)
    requires forall id :: id in rows ==> rows[id].id == id
    ensures Cascading(rows, failed, rows, {failed}, [])
  {
    assert ToSet<TaskId>([]) == {};
  }

  lemma CascadeKeepsIds(rows: Rows, failed: TaskId, now: Rows, frontier: set<TaskId>, skipped: seq<TaskId>)
    requires Cascading(rows, failed, now, frontier, skipped)
    ensures now.Keys == rows.Keys && forall id :: id in now ==> now[id].id == id
  {
  }

  lemma CascadeReaches(rows: Rows, failed: TaskId, now: Rows, frontier: set<TaskId>, skipped: seq<TaskId>,
                       dependents: set<TaskId>)
    requires Cascading(rows, failed, now, frontier, skipped) && dependents == WaitingOn(now, frontier)
    ensures AllDoomed(rows, failed, dependents, skipped)
  {
    forall t | t in dependents
      ensures t in rows && t !in skipped && Doomed(EdgesOf(rows), BoardOf(rows), {failed}, t)
    {
      var d :| d in now[t].spec.dependencies && d in frontier;
      assert t in rows && t !in skipped && now[t] == rows[t];
      DoomedDirectly(EdgesOf(rows), BoardOf(rows), {failed}, t, d);
    }
  }

  lemma CascadeFits(rows: Rows, failed: TaskId, now: Rows, frontier: set<TaskId>, skipped: seq<TaskId>,
                    left: set<TaskId>)
    requires Cascading(rows, failed, now, frontier, skipped) && AllDoomed(rows, failed, left, skipped)
    ensures |skipped| + |left| <= |rows|
  {
    NoRepeatsFits(skipped, rows.Keys - left);
  }

  lemma CascadeStep(rows: Rows, failed: TaskId, now: Rows, frontier: set<TaskId>, skipped: seq<TaskId>,
                    left: set<TaskId>, id: TaskId)
    requires Cascading(rows, failed, now, frontier, skipped) && AllDoomed(rows, failed, left, skipped) && id in left
    ensures id in now
    ensures Cascading(rows, failed, now[id := now[id].(status := Skipped)], frontier + {id}, skipped + [id])
    ensures AllDoomed(rows, failed, left - {id}, skipped + [id])
  {
    assert ToSet(skipped + [id]) == ToSet(skipped) + {id};
  }

  lemma CascadeIsExact(rows: Rows, failed: TaskId, now: Rows, frontier: set<TaskId>, skipped: seq<TaskId>)
    requires Cascading(rows, failed, now, frontier, skipped) && WaitingOn(now, frontier) == {}
    ensures NoRepeats(skipped)
    ensures ToSet(skipped) == DoomedSet(EdgesOf(rows), BoardOf(rows), {failed})
    ensures now == SkipRows(rows, DoomedSet(EdgesOf(rows), BoardOf(rows), {failed}))
  {
    var e, b, done := EdgesOf(rows), BoardOf(rows), ToSet(skipped);
    forall t, d | t in b && t in e && !b[t].Terminal() && d in e[t] && (d in {failed} || d in done)
      ensures t in done
    {
      assert t !in WaitingOn(now, frontier);
      assert d in now[t].spec.dependencies && d in frontier;
    }
    forall t | t in DoomedSet(e, b, {failed})
      ensures t in done
    {
      var p :| DoomPath(e, b, {failed}, p) && p[0] == t;
      DoomIsLeast(e, b, {failed}, done, p);
    }
  }
}
