/** The course of one task: route, execute, record, react, until it is settled.

    Everything the executor cannot decide itself (the router, the adapters, the retry policy,
    the write prediction, the merge of an isolated worktree) is an `Env`: arbitrary functions
    of what the executor hands them. */
module Attempts {
  import opened Dag
  import opened Tokens
  import opened Waves
  import opened Tasks
  import opened Ledgers

  /** What an adapter call produced. */
  datatype Reply = Delivered(success: bool, tokens: TokenUsage, changed: seq<string>) | Errored

  /** The retry policy's answer; a re-plan says whether its reason names the context. */
  datatype Decision = RetrySameTarget | Reroute | AskPlanner(oversized: bool) | GiveUp

  /** How an isolated task's work came back; `InPlace` when it was not isolated. */
  datatype Landing = InPlace | Applied(changed: seq<string>) | Conflicting

  datatype Env = Env(
    route: (TaskId, nat, seq<Target>) -> Option<Target>,
    probe: (TaskId, nat, seq<Target>) -> bool,
    reply: (TaskId, nat, Target) -> Reply,
    decide: (TaskId, nat, nat, bool) -> Decision,
    writes: (TaskId, seq<string>) -> seq<Path>,
    landing: TaskId -> Landing)

  datatype End = Done | OutOfBudget | Unroutable | GaveUp | AskedPlanner(oversized: bool)

  datatype Course = Course(attempts: seq<Attempt>, changed: seq<string>, last: Option<Target>, end: End)

  function EndStatus(end: End): TaskStatus {
    match end
    case Done => Completed
    case AskedPlanner(_) => Running
    case _ => Failed
  }

  const ESTIMATED_NOTHING := TokenUsage(0, 0, 0, false)

  function AttemptOf(target: Target, reply: Reply): Attempt {
    match reply
    case Delivered(success, tokens, _) => Attempt(target, success, tokens)
    case Errored => Attempt(target, false, ESTIMATED_NOTHING)
  }

  /** One pass of the loop up to the adapter's answer. */
  datatype Step =
    | Stopped(end: End)
    | Won(attempt: Attempt, changed: seq<string>)
    | Lost(attempt: Attempt)

  function TryOnce(env: Env, cap: nat, id: TaskId, n: nat, abandoned: seq<Target>): Step {
    if n >= cap then Stopped(OutOfBudget)
    else
      match env.route(id, n, abandoned)
      case None => Stopped(Unroutable)
      case Some(target) =>
        var reply := env.reply(id, n, target);
        var attempt := AttemptOf(target, reply);
        if attempt.success then Won(attempt, reply.changed) else Lost(attempt)
  }

  /** What the policy says about a failed attempt: whether there is anywhere else to go is
      probed with the failed target left out as well. The probe and the routing that may follow
      it are answered apart, as the world may change in between. */
  function DecisionFor(env: Env, id: TaskId, n: nat, abandoned: seq<Target>, onTarget: nat, target: Target): Decision {
    env.decide(id, n + 1, onTarget + 1, env.probe(id, n + 1, abandoned + [target]))
  }

  /** The course of `id` from its `n`-th attempt on, with `abandoned` targets excluded and
      `onTarget` attempts spent on the current one. */
  function CourseFrom(env: Env, cap: nat, id: TaskId, n: nat, abandoned: seq<Target>, onTarget: nat,
                      last: Option<Target>): Course
    decreases cap - n, 1
  {
    match TryOnce(env, cap, id, n, abandoned)
    case Stopped(end) => Course([], [], last, end)
    case Won(attempt, changed) => Course([attempt], changed, Some(attempt.target), Done)
    case Lost(attempt) => AfterLoss(env, cap, id, n, abandoned, onTarget, attempt)
  }

  /** How the course goes on after a failed attempt. */
  function AfterLoss(env: Env, cap: nat, id: TaskId, n: nat, abandoned: seq<Target>, onTarget: nat, a: Attempt): Course
    requires n < cap
    decreases cap - n, 0
  {
    var tried := Some(a.target);
    match DecisionFor(env, id, n, abandoned, onTarget, a.target)
    case RetrySameTarget => Prepend([a], CourseFrom(env, cap, id, n + 1, abandoned, onTarget + 1, tried))
    case Reroute => Prepend([a], CourseFrom(env, cap, id, n + 1, abandoned + [a.target], 0, tried))
    case AskPlanner(oversized) => Course([a], [], tried, AskedPlanner(oversized))
    case GiveUp => Course([a], [], tried, GaveUp)
  }

  function Prepend(earlier: seq<Attempt>, c: Course): Course {
    c.(attempts := earlier + c.attempts)
  }

  /** One turn of the loop, as an equation. */
  lemma CourseUnfolds(env: Env, cap: nat, id: TaskId, n: nat, abandoned: seq<Target>, onTarget: nat,
                      last: Option<Target>)
    ensures var c := CourseFrom(env, cap, id, n, abandoned, onTarget, last);
            var step := TryOnce(env, cap, id, n, abandoned);
            && (step.Stopped? ==> c == Course([], [], last, step.end) && EndStatus(step.end).Failed?)
            && (step.Won? ==> c == Course([step.attempt], step.changed, Some(step.attempt.target), Done))
            && (!step.Stopped? ==> n < cap)
            && (step.Lost? ==> c == AfterLoss(env, cap, id, n, abandoned, onTarget, step.attempt))
  {
  }

  /** The whole course of a task that has been attempted `n` times before. */
  function CourseOf(env: Env, cap: nat, id: TaskId, n: nat, last: Option<Target>): Course {
    CourseFrom(env, cap, id, n, [], 0, last)
  }

  /** However the policy decides and the adapters behave, the budget is never exceeded, and a
      course names the target of its last attempt. */
  lemma {:induction false} CourseIsBounded(env: Env, cap: nat, id: TaskId, n: nat, abandoned: seq<Target>,
                                           onTarget: nat, last: Option<Target>)
    ensures var c := CourseFrom(env, cap, id, n, abandoned, onTarget, last);
            && n + |c.attempts| <= (if n <= cap then cap else n)
            && c.last == if c.attempts == [] then last else Some(c.attempts[|c.attempts| - 1].target)
    decreases cap - n
  {
    hide CourseFrom;
    hide TryOnce;
    CourseUnfolds(env, cap, id, n, abandoned, onTarget, last);
    var step := TryOnce(env, cap, id, n, abandoned);
    if step.Lost? {
      var target := step.attempt.target;
      CourseIsBounded(env, cap, id, n + 1, abandoned, onTarget + 1, Some(target));
      CourseIsBounded(env, cap, id, n + 1, abandoned + [target], 0, Some(target));
    }
  }

  ghost predicate OnlyLastSucceeds(c: Course) {
    && (c.end.Done? <==> c.attempts != [] && c.attempts[|c.attempts| - 1].success)
    && (forall i :: 0 <= i < |c.attempts| - 1 ==> !c.attempts[i].success)
  }

  lemma LostThen(c: Course, a: Attempt)
    requires !a.success && OnlyLastSucceeds(c)
    ensures OnlyLastSucceeds(Prepend([a], c))
  {
  }

  /** A course succeeds exactly when its last attempt does, and every earlier attempt failed. */
  lemma {:induction false} CourseEndsWithSuccess(env: Env, cap: nat, id: TaskId, n: nat, abandoned: seq<Target>,
                                                 onTarget: nat, last: Option<Target>)
    ensures OnlyLastSucceeds(CourseFrom(env, cap, id, n, abandoned, onTarget, last))
    decreases cap - n
  {
    hide CourseFrom;
    CourseUnfolds(env, cap, id, n, abandoned, onTarget, last);
    var step := TryOnce(env, cap, id, n, abandoned);
    if step.Lost? {
      var target := Some(step.attempt.target);
      var again := CourseFrom(env, cap, id, n + 1, abandoned, onTarget + 1, target);
      var elsewhere := CourseFrom(env, cap, id, n + 1, abandoned + [target.value], 0, target);
      CourseEndsWithSuccess(env, cap, id, n + 1, abandoned, onTarget + 1, target);
      CourseEndsWithSuccess(env, cap, id, n + 1, abandoned + [target.value], 0, target);
      LostThen(again, step.attempt);
      LostThen(elsewhere, step.attempt);
    }
  }

  /** The router never offers a target it was told to leave out. */
  ghost predicate HonoursExclusions(env: Env) {
    forall id, n, abandoned {:trigger env.route(id, n, abandoned)} ::
      env.route(id, n, abandoned).Some? ==> env.route(id, n, abandoned).value !in abandoned
  }

  /** A target abandoned once is never tried again. */
  lemma {:induction false} AbandonedForGood(env: Env, cap: nat, id: TaskId, n: nat, abandoned: seq<Target>,
                                            onTarget: nat, last: Option<Target>)
    requires HonoursExclusions(env)
    ensures forall a :: a in CourseFrom(env, cap, id, n, abandoned, onTarget, last).attempts ==> a.target !in abandoned
    decreases cap - n
  {
    var step := TryOnce(env, cap, id, n, abandoned);
    if step.Lost? {
      var target := step.attempt.target;
      AbandonedForGood(env, cap, id, n + 1, abandoned, onTarget + 1, Some(target));
      AbandonedForGood(env, cap, id, n + 1, abandoned + [target], 0, Some(target));
      assert env.route(id, n, abandoned).value !in abandoned;
    }
  }

  // ------------------------------------------------------------------- ledgers

  /** One entry of the usage ledger. */
  datatype UsageRecord = UsageRecord(task: TaskId, target: Target, tokens: TokenUsage, success: bool)

  /** One entry of the routing history; only successes carry tokens. */
  datatype OutcomeRecord = OutcomeRecord(target: Target, success: bool, tokens: u64)

  function RecordOf(id: TaskId, a: Attempt): UsageRecord {
    UsageRecord(id, a.target, a.tokens, a.success)
  }

  function RecordsOf(id: TaskId, attempts: seq<Attempt>): seq<UsageRecord> {
    seq(|attempts|, i requires 0 <= i < |attempts| => RecordOf(id, attempts[i]))
  }

  function OutcomeOf(r: UsageRecord): OutcomeRecord {
    OutcomeRecord(r.target, r.success, if r.success then r.tokens.Total() else 0)
  }

  function OutcomesOf(rs: seq<UsageRecord>): seq<OutcomeRecord> {
    seq(|rs|, i requires 0 <= i < |rs| => OutcomeOf(rs[i]))
  }

  /** The routing history is told of every attempt where it went and whether it succeeded, and what it used
      if it did: input and output, capped at the largest counter. */
  lemma OutcomesTell(id: TaskId, attempts: seq<Attempt>, i: nat)
    requires i < |attempts|
    ensures var outcomes, a := OutcomesOf(RecordsOf(id, attempts)), attempts[i];
            && |outcomes| == |attempts|
            && outcomes[i].target == a.target && (outcomes[i].success <==> a.success)
            && (!a.success ==> outcomes[i].tokens == 0)
            && (a.success && a.tokens.input + a.tokens.output <= MAX_U64 ==>
                  outcomes[i].tokens == a.tokens.input + a.tokens.output)
            && (a.success && a.tokens.input + a.tokens.output > MAX_U64 ==> outcomes[i].tokens == MAX_U64)
  {
  }

  /** The entries of one task, in ledger order. */
  function EntriesOf(ledger: seq<UsageRecord>, id: TaskId): seq<UsageRecord> {
    if ledger == [] then []
    else
      var n := |ledger| - 1;
      EntriesOf(ledger[..n], id) + if ledger[n].task == id then [ledger[n]] else []
  }

  lemma {:induction false} EntriesOfConcat(a: seq<UsageRecord>, b: seq<UsageRecord>, id: TaskId)
    ensures EntriesOf(a + b, id) == EntriesOf(a, id) + EntriesOf(b, id)
  {
    if b == [] {
      assert a + b == a;
    } else {
      var n := |b| - 1;
      EntriesOfConcat(a, b[..n], id);
      assert (a + b)[..|a + b| - 1] == a + b[..n];
    }
  }

  lemma {:induction false} EntriesOfRecords(id: TaskId, attempts: seq<Attempt>, other: TaskId)
    ensures EntriesOf(RecordsOf(id, attempts), other) == if id == other then RecordsOf(id, attempts) else []
  {
    if attempts != [] {
      var n := |attempts| - 1;
      EntriesOfRecords(id, attempts[..n], other);
      assert RecordsOf(id, attempts)[..n] == RecordsOf(id, attempts[..n]);
    }
  }

  function UsagesOf(ledger: seq<UsageRecord>): seq<TokenUsage> {
    seq(|ledger|, i requires 0 <= i < |ledger| => ledger[i].tokens)
  }

  ghost function TotalsByTask(ledger: seq<UsageRecord>, ids: set<TaskId>): map<TaskId, TokenUsage> {
    map id | id in ids :: Sum(UsagesOf(EntriesOf(ledger, id)))
  }

  lemma {:induction false} ZeroTotals(ids: seq<TaskId>, keys: set<TaskId>)
    requires forall i :: 0 <= i < |ids| ==> ids[i] in keys
    ensures SumOver(TotalsByTask([], keys), ids) == NOTHING
  {
    if ids != [] {
      ZeroTotals(ids[..|ids| - 1], keys);
    }
  }

  /** Changing the figure of one key changes the total by what that key gained. */
  lemma {:induction false} SumOverBump(f: map<TaskId, TokenUsage>, g: map<TaskId, TokenUsage>, ids: seq<TaskId>,
                                       x: TaskId, more: TokenUsage)
    requires NoRepeats(ids) && f.Keys == g.Keys && x in f
    requires forall i :: 0 <= i < |ids| ==> ids[i] in f
    requires g[x] == f[x].Merge(more) && forall y :: y in f && y != x ==> f[y] == g[y]
    ensures SumOver(g, ids) == if x in ids then SumOver(f, ids).Merge(more) else SumOver(f, ids)
  {
    if ids != [] {
      var n := |ids| - 1;
      SumOverBump(f, g, ids[..n], x, more);
      assert ids == ids[..n] + [ids[n]];
      var rest := SumOver(f, ids[..n]);
      MergeIsCommutativeMonoid(rest, f[ids[n]], more);
      MergeIsCommutativeMonoid(rest, more, g[ids[n]]);
      MergeIsCommutativeMonoid(more, f[ids[n]], more);
    }
  }

  lemma SumUsagesLast(ledger: seq<UsageRecord>)
    requires ledger != []
    ensures Sum(UsagesOf(ledger)) == Sum(UsagesOf(ledger[..|ledger| - 1])).Merge(ledger[|ledger| - 1].tokens)
  {
    assert UsagesOf(ledger)[..|ledger| - 1] == UsagesOf(ledger[..|ledger| - 1]);
  }

  lemma TotalsBump(ledger: seq<UsageRecord>, r: UsageRecord, keys: set<TaskId>)
    requires r.task in keys
    ensures var f, g := TotalsByTask(ledger, keys), TotalsByTask(ledger + [r], keys);
            g[r.task] == f[r.task].Merge(r.tokens) && forall y :: y in f && y != r.task ==> f[y] == g[y]
  {
    assert (ledger + [r])[..|ledger|] == ledger;
    forall y | y in keys && y != r.task
      ensures EntriesOf(ledger + [r], y) == EntriesOf(ledger, y)
    {
    }
    var before := EntriesOf(ledger, r.task);
    assert UsagesOf(before + [r])[..|before|] == UsagesOf(before);
  }

  /** In whatever order attempts of different tasks reached the ledger, its total is the sum
      of the per-task totals. */
  lemma {:induction false} LedgerTotal(ledger: seq<UsageRecord>, ids: seq<TaskId>, keys: set<TaskId>)
    requires Lists(ids, keys) && forall i :: 0 <= i < |ledger| ==> ledger[i].task in keys
    ensures Sum(UsagesOf(ledger)) == SumOver(TotalsByTask(ledger, keys), ids)
  {
    if ledger == [] {
      ZeroTotals(ids, keys);
    } else {
      var n := |ledger| - 1;
      var init, last := ledger[..n], ledger[n];
      assert ledger == init + [last];
      LedgerTotal(init, ids, keys);
      TotalsBump(init, last, keys);
      SumUsagesLast(ledger);
      assert last.task in keys;
      SumOverBump(TotalsByTask(init, keys), TotalsByTask(ledger, keys), ids, last.task, last.tokens);
    }
  }
}
