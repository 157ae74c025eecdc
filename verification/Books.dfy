/** The usage ledger against the plan: every attempt is booked exactly once. */
module Books {
  import opened Dag
  import opened Tokens
  import opened Tasks
  import opened Attempts
  import opened Replanning
  import opened Totals
  import opened Runs

  /** The ledger holds, task by task and in order, exactly the attempts the plan shows. */
  ghost predicate Booked(usage: seq<UsageRecord>, rows: Rows) {
    && (forall r :: r in usage ==> r.task in rows)
    && (forall t :: t in rows ==> BookedFor(usage, t, rows[t].attempts))
  }

  ghost predicate BookedFor(usage: seq<UsageRecord>, t: TaskId, attempts: seq<Attempt>) {
    EntriesOf(usage, t) == RecordsOf(t, attempts)
  }

  function ResultIds(results: seq<WaveResult>): seq<TaskId> {
    seq(|results|, i requires 0 <= i < |results| => results[i].id)
  }

  /** The same while the results from `k` on are still to be folded in. */
  ghost predicate BookedExcept(usage: seq<UsageRecord>, rows: Rows, results: seq<WaveResult>, k: nat)
    requires k <= |results|
  {
    && (forall r :: r in usage ==> r.task in rows)
    && (forall t :: t in rows && t !in ResultIds(results)[k..] ==> BookedFor(usage, t, rows[t].attempts))
    && (forall j :: k <= j < |results| ==>
          && results[j].id in results[j].rows
          && BookedFor(usage, results[j].id, results[j].rows[results[j].id].attempts))
  }

  lemma FoldKeepsBooks(usage: seq<UsageRecord>, rows: Rows, after: Rows, results: seq<WaveResult>, k: nat)
    requires k < |results| && BookedExcept(usage, rows, results, k)
    requires AttemptsKept(rows, after, results[k])
    requires NoRepeats(ResultIds(results))
    ensures BookedExcept(usage, after, results, k + 1)
  {
    var ids := ResultIds(results);
    forall t | t in after && t !in ids[k + 1..]
      ensures BookedFor(usage, t, after[t].attempts)
    {
      assert ids[k..] == [ids[k]] + ids[k + 1..];
      if t !in rows {
        NoEntries(usage, t);
      }
    }
  }

  lemma {:induction false} NoEntries(usage: seq<UsageRecord>, t: TaskId)
    requires forall r :: r in usage ==> r.task != t
    ensures BookedFor(usage, t, [])
  {
    if usage != [] {
      NoEntries(usage[..|usage| - 1], t);
    }
  }

  /** Balanced books: the ledger's token total is the plan's. */
  lemma BooksBalance(usage: seq<UsageRecord>, rows: Rows, order: seq<TaskId>)
    requires WellFormed(rows, order) && Booked(usage, rows)
    ensures Sum(UsagesOf(usage)) == PlanTotal(rows, order)
  {
    LedgerTotal(usage, order, rows.Keys);
    TotalsAgree(usage, rows);
    hide Booked; hide TotalsByTask; hide TotalsOf; hide UsagesOf; hide Lists;
    assert forall i :: 0 <= i < |order| ==> order[i] in order;
  }

  lemma TotalsAgree(usage: seq<UsageRecord>, rows: Rows)
    requires Booked(usage, rows)
    ensures TotalsByTask(usage, rows.Keys) == TotalsOf(rows)
  {
    hide EntriesOf;
    forall t | t in rows
      ensures TotalsByTask(usage, rows.Keys)[t] == TotalsOf(rows)[t]
    {
      assert BookedFor(usage, t, rows[t].attempts);
      assert UsagesOf(RecordsOf(t, rows[t].attempts)) == TokensOf(rows[t].attempts);
    }
  }

  lemma RunKeepsBooks(usage: seq<UsageRecord>, rows: Rows, results: seq<WaveResult>, res: WaveResult)
    requires BookedExcept(usage, rows, results, 0)
    requires res.id in rows && rows[res.id].attempts == [] && res.id !in ResultIds(results) && res.id in res.rows
    ensures BookedExcept(usage + RecordsOf(res.id, res.rows[res.id].attempts), rows, results + [res], 0)
  {
    var more := RecordsOf(res.id, res.rows[res.id].attempts);
    var ids, ids' := ResultIds(results), ResultIds(results + [res]);
    assert ids' == ids + [res.id] && ids'[0..] == ids' && ids[0..] == ids;
    forall t
      ensures EntriesOf(usage + more, t) == EntriesOf(usage, t) + if t == res.id then more else []
    {
      EntriesOfConcat(usage, more, t);
      EntriesOfRecords(res.id, res.rows[res.id].attempts, t);
    }
    forall j | 0 <= j < |results + [res]|
      ensures BookedFor(usage + more, (results + [res])[j].id,
                        (results + [res])[j].rows[(results + [res])[j].id].attempts)
    {
      if j < |results| {
        assert ids[j] == results[j].id;
      } else {
        assert BookedFor(usage, res.id, []);
      }
    }
  }

  lemma RanAttempts(env: Env, cap: nat, rows: Rows, order: seq<TaskId>, res: WaveResult, n: nat)
    requires Ran(env, cap, rows, order, res, n) && Fresh(rows, n)
    ensures res.id in res.rows
    ensures res.rows[res.id].attempts == rows[res.id].attempts + RowCourse(env, cap, rows[res.id]).attempts
  {
    hide CourseOf;
    assert TaskId(n) !in rows && TaskId(n + 1) !in rows;
  }

  lemma OutcomesConcat(a: seq<UsageRecord>, b: seq<UsageRecord>)
    ensures OutcomesOf(a + b) == OutcomesOf(a) + OutcomesOf(b)
  {
  }

  lemma BooksOpen(usage: seq<UsageRecord>, rows: Rows)
    requires Booked(usage, rows)
    ensures BookedExcept(usage, rows, [], 0)
  {
  }

  lemma BooksClose(usage: seq<UsageRecord>, rows: Rows, results: seq<WaveResult>)
    requires BookedExcept(usage, rows, results, |results|)
    ensures Booked(usage, rows)
  {
  }
}
