/** Token totals over tasks and plans. */
module Totals {
  import opened Dag
  import opened Waves
  import opened Tasks
  import opened Tokens

  function TokensOf(attempts: seq<Attempt>): seq<TokenUsage> {
    seq(|attempts|, i requires 0 <= i < |attempts| => attempts[i].tokens)
  }

  function TaskTotal(task: Task): TokenUsage {
    Sum(TokensOf(task.attempts))
  }

  function TotalsOf(rows: Rows): map<TaskId, TokenUsage> {
    map t | t in rows :: TaskTotal(rows[t])
  }

  /** Tokens across a whole plan, failed attempts included. */
  function PlanTotal(rows: Rows, order: seq<TaskId>): TokenUsage
    requires forall i :: 0 <= i < |order| ==> order[i] in rows
  {
    SumOver(TotalsOf(rows), order)
  }
}
