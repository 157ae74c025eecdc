/** The store's sessions, tasks and attempts, and the routing history folded from the attempts. */
module History {
  import opened Tasks
  import opened Tokens

  // ------------------------------------------------------------------ the tables

  /** SQLite integers are signed; the casts wrap. */
  function AsI64(n: u64): int {
    if n > MAX_U64 / 2 then n - MAX_U64 - 1 else n
  }

  function AsU64(n: int): u64 {
    n % (MAX_U64 + 1)
  }

  function AsU32(n: int): nat {
    n % 0x1_0000_0000
  }

  lemma CastsRoundTrip(n: u64)
    ensures AsU64(AsI64(n)) == n
  {
  }

  datatype SessionRow = SessionRow(goal: string, outcome: Option<(bool, string)>)

  datatype TaskRow = TaskRow(session: string, parent: Option<string>, description: string, taskType: string,
                             status: string, risk: string)

  datatype AttemptRow = AttemptRow(task: string, session: string, agent: string, model: Option<string>,
                                   latency: int, input: int, output: int, cached: int, reported: bool, success: bool)

  datatype Key = Key(agent: string, model: string, taskType: string)

  datatype Totals = Totals(attempts: int, successes: int, latency: int, tokens: int) {
    function Plus(other: Totals): Totals {
      Totals(attempts + other.attempts, successes + other.successes, latency + other.latency, tokens + other.tokens)
    }
  }

  const ZERO := Totals(0, 0, 0, 0)

  datatype Tables = Tables(
    sessions: map<string, SessionRow>,
    tasks: map<string, TaskRow>,
    attempts: map<string, AttemptRow>,
    history: map<Key, Totals>)

  const EMPTY := Tables(map[], map[], map[], map[])

  /** What an attempt reports of itself. */
  datatype Usage = Usage(attempt: string, session: string, task: string, taskType: TaskType, agent: string,
                         model: Option<string>, latency: u64, tokens: TokenUsage, success: bool)

  function TypeName(t: TaskType): string {
    match t
    case Inspection => "Inspection"
    case Research => "Research"
    case Design => "Design"
    case Implementation => "Implementation"
    case BugFix => "BugFix"
    case Refactor => "Refactor"
    case Testing => "Testing"
    case Validation => "Validation"
    case Documentation => "Documentation"
    case Review => "Review"
    case General => "General"
  }

  function ParseTypeName(raw: string): Option<TaskType> {
    if raw == "Inspection" then Some(Inspection)
    else if raw == "Research" then Some(Research)
    else if raw == "Design" then Some(Design)
    else if raw == "Implementation" then Some(Implementation)
    else if raw == "BugFix" then Some(BugFix)
    else if raw == "Refactor" then Some(Refactor)
    else if raw == "Testing" then Some(Testing)
    else if raw == "Validation" then Some(Validation)
    else if raw == "Documentation" then Some(Documentation)
    else if raw == "Review" then Some(Review)
    else if raw == "General" then Some(General)
    else None
  }

  /** Every bucket this build writes is one it can load. */
  lemma TypeNamesRoundTrip(t: TaskType)
    ensures ParseTypeName(TypeName(t)) == Some(t)
  {
  }

  function ModelKey(model: Option<string>): string {
    if model.Some? then model.value else "*"
  }

  function RowOf(r: Usage): AttemptRow {
    AttemptRow(r.task, r.session, r.agent, r.model, AsI64(r.latency), AsI64(r.tokens.input), AsI64(r.tokens.output),
               AsI64(r.tokens.cached), r.tokens.reported, r.success)
  }

  function BucketOf(r: Usage): Key {
    Key(r.agent, ModelKey(r.model), TypeName(r.taskType))
  }

  function Increment(r: Usage): Totals {
    Totals(1, if r.success then 1 else 0, AsI64(r.latency), AsI64(r.tokens.Total()))
  }

  datatype Step =
    | BeginSession(session: string, goal: string)
    | FinishSession(session: string, success: bool, summary: string)
    | SaveTask(session: string, id: string, parent: Option<string>, description: string, taskType: TaskType,
               status: string, risk: string)
    | RecordAttempt(usage: Usage)

  /** A write that would leave a task without its session is refused, and changes nothing. */
  predicate Refused(db: Tables, step: Step) {
    match step
    case BeginSession(_, _) => false
    case FinishSession(_, _, _) => false
    case SaveTask(session, id, _, _, _, _, _) => id !in db.tasks && session !in db.sessions
    case RecordAttempt(r) => r.task !in db.tasks && r.session !in db.sessions
  }

  function HistoryOf(db: Tables, key: Key): Totals {
    if key in db.history then db.history[key] else ZERO
  }

  function After(db: Tables, step: Step): Tables {
    if Refused(db, step) then db
    else
      match step
      case BeginSession(id, goal) =>
        db.(sessions := db.sessions[id := if id in db.sessions then db.sessions[id].(goal := goal)
                                          else SessionRow(goal, None)])
      case FinishSession(id, success, summary) =>
        if id in db.sessions then
          db.(sessions := db.sessions[id := db.sessions[id].(outcome := Some((success, summary)))])
        else db
      case SaveTask(session, id, parent, description, taskType, status, risk) =>
        var owner := if id in db.tasks then db.tasks[id].session else session;
        db.(tasks := db.tasks[id := TaskRow(owner, parent, description, TypeName(taskType), status, risk)])
      case RecordAttempt(r) =>
        db.(tasks := if r.task in db.tasks then db.tasks
                     else db.tasks[r.task := TaskRow(r.session, None, "", TypeName(r.taskType), "Running", "")],
            attempts := db.attempts[r.attempt := RowOf(r)],
            history := db.history[BucketOf(r) := HistoryOf(db, BucketOf(r)).Plus(Increment(r))])
  }

  class Store {
    var sessions: map<string, SessionRow>
    var tasks: map<string, TaskRow>
    var attempts: map<string, AttemptRow>
    var history: map<Key, Totals>

    function Value(): Tables
      reads this
    {
      Tables(sessions, tasks, attempts, history)
    }

    constructor ()
      ensures Value() == EMPTY
    {
      sessions, tasks, attempts, history := map[], map[], map[], map[];
    }

    /** An upsert: a replaced session row would take its tasks and their attempts with it. */
    method BeginSession(id: string, goal: string)
      modifies this
      ensures Value() == After(old(Value()), Step.BeginSession(id, goal))
    {
      if id in sessions {
        sessions := sessions[id := sessions[id].(goal := goal)];
      } else {
        sessions := sessions[id := SessionRow(goal, None)];
      }
    }

    method FinishSession(id: string, success: bool, summary: string)
      modifies this
      ensures Value() == After(old(Value()), Step.FinishSession(id, success, summary))
    {
      if id in sessions {
        sessions := sessions[id := sessions[id].(outcome := Some((success, summary)))];
      }
    }

    method SaveTask(session: string, id: string, parent: Option<string>, description: string, taskType: TaskType,
                    status: string, risk: string)
      returns (ok: bool)
      modifies this
      ensures ok <==> !Refused(old(Value()), Step.SaveTask(session, id, parent, description, taskType, status, risk))
      ensures Value() == After(old(Value()), Step.SaveTask(session, id, parent, description, taskType, status, risk))
    {
      if id in tasks {
        tasks := tasks[id := tasks[id].(parent := parent, description := description, taskType := TypeName(taskType),
                                        status := status, risk := risk)];
        return true;
      }
      if session !in sessions {
        return false;
      }
      tasks := tasks[id := TaskRow(session, parent, description, TypeName(taskType), status, risk)];
      return true;
    }

    /** Record one attempt, and fold it into the history, in one transaction. */
    method RecordAttempt(r: Usage) returns (ok: bool)
      modifies this
      ensures ok <==> !Refused(old(Value()), Step.RecordAttempt(r))
      ensures Value() == After(old(Value()), Step.RecordAttempt(r))
    {
      if r.task !in tasks {
        if r.session !in sessions {
          return false;
        }
        tasks := tasks[r.task := TaskRow(r.session, None, "", TypeName(r.taskType), "Running", "")];
      }
      attempts := attempts[r.attempt := RowOf(r)];
      var key := BucketOf(r);
      if key in history {
        var row := history[key];
        history := history[key := Totals(row.attempts + 1, row.successes + (if r.success then 1 else 0),
                                         row.latency + AsI64(r.latency), row.tokens + AsI64(r.tokens.Total()))];
      } else {
        history := history[key := Increment(r)];
      }
      return true;
    }

    /** Rebuild the router's history: one bucket per row of a known type. */
    method LoadRoutingHistory() returns (loaded: map<Key, Stats>)
      ensures loaded == Loaded(history)
    {
      loaded := map[];
      var left := history.Keys;
      while left != {}
        invariant left <= history.Keys
        invariant loaded == map k | k in history && k !in left && ParseTypeName(k.taskType).Some? :: StatsOf(history[k])
        decreases left
      {
        var k :| k in left;
        left := left - {k};
        if ParseTypeName(k.taskType).Some? {
          loaded := loaded[k := StatsOf(history[k])];
        }
      }
    }
  }

  datatype Stats = Stats(attempts: nat, successes: nat, meanLatency: nat, meanTokens: nat)

  function StatsOf(row: Totals): Stats {
    var attempts, successes := AsU32(row.attempts), AsU32(row.successes);
    Stats(attempts, successes,
          if attempts == 0 then 0 else AsU64(row.latency) / attempts,
          if successes == 0 then 0 else AsU64(row.tokens) / successes)
  }

  function Loaded(history: map<Key, Totals>): map<Key, Stats> {
    map k | k in history && ParseTypeName(k.taskType).Some? :: StatsOf(history[k])
  }

  // --------------------------------------------------------------- the aggregate

  /** What an attempt's own columns add up to. */
  function Measure(row: AttemptRow): Totals {
    Totals(1, if row.success then 1 else 0, row.latency, AsI64(SaturatingAdd(AsU64(row.input), AsU64(row.output))))
  }

  lemma RowMeasuresTheRecord(r: Usage)
    ensures Measure(RowOf(r)) == Increment(r)
  {
    CastsRoundTrip(r.tokens.input);
    CastsRoundTrip(r.tokens.output);
    hide AsU64;
    hide AsI64;
  }

  /** The bucket of a stored attempt: its agent and model, and the type of its task. */
  function KeyOf(db: Tables, id: string): Key
    requires id in db.attempts && db.attempts[id].task in db.tasks
  {
    Key(db.attempts[id].agent, ModelKey(db.attempts[id].model), db.tasks[db.attempts[id].task].taskType)
  }

  /** Every attempt's task is in the table. */
  predicate Referential(db: Tables) {
    forall id :: id in db.attempts ==> db.attempts[id].task in db.tasks
  }

  function InBucket(db: Tables, key: Key): set<string>
    requires Referential(db)
  {
    set id | id in db.attempts && KeyOf(db, id) == key
  }

  ghost function SumOver(rows: map<string, AttemptRow>, ids: set<string>): Totals
    requires ids <= rows.Keys
  {
    if ids == {} then ZERO
    else
      var id :| id in ids;
      Measure(rows[id]).Plus(SumOver(rows, ids - {id}))
  }

  lemma PlusCommutes(a: Totals, b: Totals, c: Totals)
    ensures a.Plus(b.Plus(c)) == b.Plus(a.Plus(c)) && a.Plus(b) == b.Plus(a)
  {
  }

  /** The order in which the rows are summed does not matter. */
  lemma {:induction false} SumOverWithout(rows: map<string, AttemptRow>, ids: set<string>, id: string)
    requires ids <= rows.Keys && id in ids
    ensures SumOver(rows, ids) == Measure(rows[id]).Plus(SumOver(rows, ids - {id}))
    decreases ids
  {
    hide Measure;
    var first :| first in ids && SumOver(rows, ids) == Measure(rows[first]).Plus(SumOver(rows, ids - {first}));
    if first != id {
      SumOverWithout(rows, ids - {first}, id);
      SumOverWithout(rows, ids - {id}, first);
      var rest := ids - {first} - {id};
      assert rest == ids - {id} - {first};
      PlusCommutes(Measure(rows[first]), Measure(rows[id]), SumOver(rows, rest));
    }
  }

  lemma {:induction false} SumOverAgrees(rows: map<string, AttemptRow>, more: map<string, AttemptRow>, ids: set<string>)
    requires ids <= rows.Keys && ids <= more.Keys && forall id :: id in ids ==> rows[id] == more[id]
    ensures SumOver(rows, ids) == SumOver(more, ids)
    decreases ids
  {
    if ids != {} {
      var id :| id in ids;
      SumOverWithout(rows, ids, id);
      SumOverWithout(more, ids, id);
      SumOverAgrees(rows, more, ids - {id});
    }
  }

  lemma {:induction false} SumOverCounts(rows: map<string, AttemptRow>, ids: set<string>)
    requires ids <= rows.Keys
    ensures SumOver(rows, ids).attempts == |ids|
    decreases ids
  {
    if ids != {} {
      var id :| id in ids;
      SumOverWithout(rows, ids, id);
      SumOverCounts(rows, ids - {id});
    }
  }

  /** What the attempts of a bucket add up to. */
  ghost function Aggregate(db: Tables, key: Key): Totals
    requires Referential(db)
  {
    SumOver(db.attempts, InBucket(db, key))
  }

  /** The history is the aggregate of the attempts, bucket by bucket. */
  ghost predicate Agrees(db: Tables) {
    Referential(db) && forall key :: HistoryOf(db, key) == Aggregate(db, key)
  }

  predicate HasAttempts(db: Tables, task: string) {
    exists id :: id in db.attempts && db.attempts[id].task == task
  }

  /** An attempt under a new id, of the type its task has; a task that keeps its type once it has attempts. */
  predicate Proper(db: Tables, step: Step) {
    match step
    case RecordAttempt(r) =>
      r.attempt !in db.attempts && (r.task in db.tasks ==> db.tasks[r.task].taskType == TypeName(r.taskType))
    case SaveTask(_, id, _, _, taskType, _, _) =>
      id in db.tasks && HasAttempts(db, id) ==> db.tasks[id].taskType == TypeName(taskType)
    case _ => true
  }

  lemma StepKeepsReferential(db: Tables, step: Step)
    requires Referential(db)
    ensures Referential(After(db, step))
  {
  }

  /** A step changes the history only by recording. */
  lemma HistoryAfter(db: Tables, r: Usage, key: Key)
    requires !Refused(db, RecordAttempt(r))
    ensures HistoryOf(After(db, RecordAttempt(r)), key)
         == if key == BucketOf(r) then HistoryOf(db, key).Plus(Increment(r)) else HistoryOf(db, key)
  {
  }

  /** The bucket the new row falls in: by the type its task has in the table. */
  function LandsIn(db: Tables, r: Usage): Key {
    Key(r.agent, ModelKey(r.model), if r.task in db.tasks then db.tasks[r.task].taskType else TypeName(r.taskType))
  }

  lemma BucketAfterRecord(db: Tables, r: Usage, key: Key)
    requires Referential(db) && !Refused(db, RecordAttempt(r))
    ensures var after := After(db, RecordAttempt(r));
            Referential(after)
            && InBucket(after, key)
               == InBucket(db, key) - {r.attempt} + if key == LandsIn(db, r) then {r.attempt} else {}
  {
    StepKeepsReferential(db, RecordAttempt(r));
    var after := After(db, RecordAttempt(r));
    forall id | id in db.attempts && id != r.attempt
      ensures KeyOf(after, id) == KeyOf(db, id)
    {
    }
    assert KeyOf(after, r.attempt) == LandsIn(db, r);
    hide TypeName;
  }

  lemma SumOverAdded(rows: map<string, AttemptRow>, more: map<string, AttemptRow>, ids: set<string>, id: string)
    requires ids <= rows.Keys && id !in rows && more.Keys == rows.Keys + {id}
    requires forall other :: other in ids ==> rows[other] == more[other]
    ensures SumOver(more, ids) == SumOver(rows, ids)
    ensures SumOver(more, ids + {id}) == SumOver(rows, ids).Plus(Measure(more[id]))
  {
    hide Measure;
    SumOverAgrees(rows, more, ids);
    SumOverWithout(more, ids + {id}, id);
    assert ids + {id} - {id} == ids;
    PlusCommutes(Measure(more[id]), SumOver(rows, ids), ZERO);
  }

  lemma AggregateAfterRecord(db: Tables, r: Usage, key: Key)
    requires Referential(db) && !Refused(db, RecordAttempt(r)) && r.attempt !in db.attempts
    ensures var after := After(db, RecordAttempt(r));
            Referential(after)
            && Aggregate(after, key)
               == if key == LandsIn(db, r) then Aggregate(db, key).Plus(Increment(r)) else Aggregate(db, key)
  {
    var after := After(db, RecordAttempt(r));
    BucketAfterRecord(db, r, key);
    RowMeasuresTheRecord(r);
    InBucketIsStored(db, key);
    AttemptsAfterRecord(db, r);
    hide TypeName; hide Measure; hide InBucket; hide After; hide Refused; hide Increment; hide RowOf;
    hide Referential; hide LandsIn;
    var ids := InBucket(db, key);
    SumOverAdded(db.attempts, after.attempts, ids, r.attempt);
    assert ids - {r.attempt} + {r.attempt} == ids + {r.attempt};
    assert ids - {r.attempt} + {} == ids;
  }

  lemma AttemptsAfterRecord(db: Tables, r: Usage)
    requires !Refused(db, RecordAttempt(r))
    ensures After(db, RecordAttempt(r)).attempts == db.attempts[r.attempt := RowOf(r)]
  {
  }

  lemma InBucketIsStored(db: Tables, key: Key)
    requires Referential(db)
    ensures InBucket(db, key) <= db.attempts.Keys
  {
  }

  // ------------------------------------------------- when the history stays right

  lemma BucketCount(db: Tables, key: Key)
    requires Referential(db)
    ensures Aggregate(db, key).attempts == |InBucket(db, key)|
  {
    InBucketIsStored(db, key);
    SumOverCounts(db.attempts, InBucket(db, key));
  }

  lemma DisagreesAt(db: Tables, key: Key)
    requires Referential(db) && HistoryOf(db, key).attempts != |InBucket(db, key)|
    ensures !Agrees(db)
  {
    BucketCount(db, key);
  }

  lemma ProperRecordAgrees(db: Tables, r: Usage)
    requires Agrees(db) && Proper(db, RecordAttempt(r)) && !Refused(db, RecordAttempt(r))
    ensures Agrees(After(db, RecordAttempt(r)))
  {
    var after := After(db, RecordAttempt(r));
    assert LandsIn(db, r) == BucketOf(r);
    StepKeepsReferential(db, RecordAttempt(r));
    hide TypeName; hide Aggregate; hide LandsIn; hide BucketOf; hide Refused; hide After; hide Increment;
    hide Proper; hide HistoryOf;
    assert r.attempt !in db.attempts by { ProperIsNew(db, r); }
    forall key
      ensures HistoryOf(after, key) == Aggregate(after, key)
    {
      HistoryAfter(db, r, key);
      AggregateAfterRecord(db, r, key);
    }
  }

  lemma ProperIsNew(db: Tables, r: Usage)
    requires Proper(db, RecordAttempt(r))
    ensures r.attempt !in db.attempts
  {
  }

  /** A second attempt under a known id, or one of another type than its task's, leaves a bucket wrong. */
  lemma ImproperRecordDisagrees(db: Tables, r: Usage)
    requires Agrees(db) && !Proper(db, RecordAttempt(r)) && !Refused(db, RecordAttempt(r))
    ensures !Agrees(After(db, RecordAttempt(r)))
  {
    var after, bucket, id := After(db, RecordAttempt(r)), BucketOf(r), r.attempt;
    ImproperRecordMisses(db, r);
    BucketCount(db, bucket);
    BucketAfterRecord(db, r, bucket);
    HistoryAfter(db, r, bucket);
    hide TypeName; hide Refused; hide After; hide Proper; hide HistoryOf; hide Aggregate; hide InBucket;
    hide BucketOf; hide LandsIn;
    if LandsIn(db, r) != bucket || id in InBucket(db, bucket) {
      CountAtMost(InBucket(db, bucket), id, LandsIn(db, r) == bucket);
      DisagreesAt(after, bucket);
    } else {
      var before := KeyOf(db, id);
      assert id in InBucket(db, before) && before != bucket by { InItsBucket(db, id); }
      BucketCount(db, before);
      BucketAfterRecord(db, r, before);
      HistoryAfter(db, r, before);
      assert |InBucket(db, before) - {id} + {}| < |InBucket(db, before)| by {
        assert InBucket(db, before) - {id} + {} == InBucket(db, before) - {id};
      }
      DisagreesAt(after, before);
    }
  }

  lemma CountAtMost(ids: set<string>, id: string, back: bool)
    requires back ==> id in ids
    ensures |ids - {id} + if back then {id} else {}| <= |ids|
  {
    if back {
      assert ids - {id} + {id} == ids;
    } else {
      assert ids - {id} + {} == ids - {id};
    }
  }

  lemma InItsBucket(db: Tables, id: string)
    requires Referential(db) && id in db.attempts
    ensures forall key :: id in InBucket(db, key) <==> key == KeyOf(db, id)
  {
  }

  lemma ImproperRecordMisses(db: Tables, r: Usage)
    requires !Proper(db, RecordAttempt(r))
    ensures LandsIn(db, r) != BucketOf(r) || r.attempt in db.attempts
  {
  }

  lemma ProperSaveAgrees(db: Tables, step: Step)
    requires Agrees(db) && step.SaveTask? && Proper(db, step) && !Refused(db, step)
    ensures Agrees(After(db, step))
  {
    var after := After(db, step);
    StepKeepsReferential(db, step);
    SaveKeepsKeys(db, step);
    assert after.attempts == db.attempts && after.history == db.history;
    hide After; hide Proper; hide Refused; hide TypeName; hide KeyOf;
    forall key
      ensures HistoryOf(after, key) == Aggregate(after, key)
    {
      assert InBucket(after, key) == InBucket(db, key);
      assert HistoryOf(db, key) == Aggregate(db, key);
    }
  }

  lemma SaveKeepsKeys(db: Tables, step: Step)
    requires Referential(db) && step.SaveTask? && Proper(db, step) && !Refused(db, step)
    ensures Referential(After(db, step))
    ensures forall id :: id in db.attempts ==> KeyOf(After(db, step), id) == KeyOf(db, id)
  {
    forall id | id in db.attempts
      ensures KeyOf(After(db, step), id) == KeyOf(db, id)
    {
      assert db.attempts[id].task == step.id ==> HasAttempts(db, step.id);
    }
  }

  /** Saving a task that has attempts under another type moves them out of their bucket. */
  lemma ImproperSaveDisagrees(db: Tables, step: Step)
    requires Agrees(db) && step.SaveTask? && !Proper(db, step) && !Refused(db, step)
    ensures !Agrees(After(db, step))
  {
    var after := After(db, step);
    var id :| id in db.attempts && db.attempts[id].task == step.id;
    var key := KeyOf(db, id);
    StepKeepsReferential(db, step);
    BucketCount(db, key);
    InItsBucket(db, id);
    SaveMovesOut(db, step, id);
    Smaller(InBucket(after, key), InBucket(db, key), id);
    assert after.history == db.history;
    hide After; hide InBucket; hide Aggregate; hide Proper; hide Refused;
    DisagreesAt(after, key);
  }

  lemma Smaller(a: set<string>, b: set<string>, x: string)
    requires a <= b - {x} && x in b
    ensures |a| < |b|
  {
    assert b - {x} == a + (b - {x} - a);
    assert |b - {x}| == |a| + |b - {x} - a|;
  }

  lemma SaveMovesOut(db: Tables, step: Step, id: string)
    requires Referential(db) && step.SaveTask? && !Proper(db, step) && !Refused(db, step)
    requires id in db.attempts && db.attempts[id].task == step.id
    ensures Referential(After(db, step))
    ensures InBucket(After(db, step), KeyOf(db, id)) <= InBucket(db, KeyOf(db, id)) - {id}
  {
    hide TypeName;
  }

  lemma OtherStepsAgree(db: Tables, step: Step)
    requires Agrees(db) && (step.BeginSession? || step.FinishSession?)
    ensures Agrees(After(db, step))
  {
    var after := After(db, step);
    assert after.attempts == db.attempts && after.history == db.history && after.tasks == db.tasks;
    hide After;
    forall key
      ensures HistoryOf(after, key) == Aggregate(after, key)
    {
      assert InBucket(after, key) == InBucket(db, key);
      assert HistoryOf(db, key) == Aggregate(db, key);
    }
  }

  lemma RefusedChangesNothing(db: Tables, step: Step)
    requires Refused(db, step)
    ensures After(db, step) == db
  {
  }

  /** A step keeps the history the aggregate of the attempts exactly when it is refused, or
      records under a new id and the task's own type, or keeps the type of a task with attempts. */
  lemma HistoryStaysRightIff(db: Tables, step: Step)
    requires Agrees(db)
    ensures Agrees(After(db, step)) <==> Refused(db, step) || Proper(db, step)
  {
    hide Agrees; hide After;
    if Refused(db, step) {
      RefusedChangesNothing(db, step);
    } else if step.RecordAttempt? {
      if Proper(db, step) {
        ProperRecordAgrees(db, step.usage);
      } else {
        ImproperRecordDisagrees(db, step.usage);
      }
    } else if step.SaveTask? {
      if Proper(db, step) {
        ProperSaveAgrees(db, step);
      } else {
        ImproperSaveDisagrees(db, step);
      }
    } else {
      OtherStepsAgree(db, step);
    }
  }

  // ------------------------------------------------------------------ whole lives

  function Final(db: Tables, steps: seq<Step>): Tables
    decreases |steps|
  {
    if steps == [] then db else Final(After(db, steps[0]), steps[1..])
  }

  ghost predicate AllProper(db: Tables, steps: seq<Step>)
    decreases |steps|
  {
    steps == [] || ((Refused(db, steps[0]) || Proper(db, steps[0])) && AllProper(After(db, steps[0]), steps[1..]))
  }

  lemma EmptyAgrees()
    ensures Agrees(EMPTY)
  {
    assert forall key :: InBucket(EMPTY, key) == {};
  }

  /** For every life of the store in which attempt ids are distinct and tasks keep their type,
      each history row is the aggregate of the attempts of its bucket. */
  lemma {:induction false} HistoryIsTheAggregate(db: Tables, steps: seq<Step>)
    requires Agrees(db) && AllProper(db, steps)
    ensures Agrees(Final(db, steps))
    decreases |steps|
  {
    hide Agrees; hide After; hide Refused; hide Proper;
    if steps != [] {
      HistoryStaysRightIff(db, steps[0]);
      HistoryIsTheAggregate(After(db, steps[0]), steps[1..]);
    }
  }

  /** Nothing is recorded under the id again. */
  predicate NotAgain(steps: seq<Step>, attempt: string) {
    forall i :: 0 <= i < |steps| && steps[i].RecordAttempt? ==> steps[i].usage.attempt != attempt
  }

  /** Whatever is saved or recorded afterwards, its session and task saved again included, an
      attempt stays as it was recorded, with its task. */
  lemma {:induction false} AttemptsAreKept(db: Tables, steps: seq<Step>, attempt: string)
    requires Referential(db) && attempt in db.attempts && NotAgain(steps, attempt)
    ensures Referential(Final(db, steps))
    ensures attempt in Final(db, steps).attempts && Final(db, steps).attempts[attempt] == db.attempts[attempt]
    decreases |steps|
  {
    if steps != [] {
      StepKeepsReferential(db, steps[0]);
      AttemptStays(db, steps[0], attempt);
      hide After;
      AttemptsAreKept(After(db, steps[0]), steps[1..], attempt);
    }
  }

  lemma AttemptStays(db: Tables, step: Step, attempt: string)
    requires attempt in db.attempts && (step.RecordAttempt? ==> step.usage.attempt != attempt)
    ensures attempt in After(db, step).attempts && After(db, step).attempts[attempt] == db.attempts[attempt]
  {
  }

  // ------------------------------------------------------------ what was written last

  /** The goal the session was begun with last, if it was. */
  function LastGoal(steps: seq<Step>, id: string): Option<string> {
    if steps == [] then None
    else
      var later := LastGoal(steps[1..], id);
      if later.None? && steps[0].BeginSession? && steps[0].session == id then Some(steps[0].goal) else later
  }

  /** How it was finished last, if it was. */
  function LastOutcome(steps: seq<Step>, id: string): Option<(bool, string)> {
    if steps == [] then None
    else
      var later := LastOutcome(steps[1..], id);
      if later.None? && steps[0].FinishSession? && steps[0].session == id
      then Some((steps[0].success, steps[0].summary)) else later
  }

  /** The last time the task was saved. */
  function LastSave(steps: seq<Step>, id: string): Option<Step> {
    if steps == [] then None
    else
      var later := LastSave(steps[1..], id);
      if later.None? && steps[0].SaveTask? && steps[0].id == id then Some(steps[0]) else later
  }

  function OrElse<T>(o: Option<T>, otherwise: T): T {
    if o.Some? then o.value else otherwise
  }

  /** A session says what it was begun with last and how it was finished last, in whatever order: being
      begun again does not undo how it was finished. */
  lemma {:induction false} SessionsSayWhatWasWritten(db: Tables, steps: seq<Step>, id: string)
    requires id in db.sessions
    ensures id in Final(db, steps).sessions
    ensures var row, was := Final(db, steps).sessions[id], db.sessions[id];
            && row.goal == OrElse(LastGoal(steps, id), was.goal)
            && row.outcome == if LastOutcome(steps, id).Some? then LastOutcome(steps, id) else was.outcome
    decreases |steps|
  {
    if steps != [] {
      SessionsSayWhatWasWritten(After(db, steps[0]), steps[1..], id);
    }
  }

  /** A task stays in the session it was first known in, and says what it was saved with last. */
  lemma {:induction false} TasksSayWhatWasWritten(db: Tables, steps: seq<Step>, id: string)
    requires id in db.tasks
    ensures id in Final(db, steps).tasks && Final(db, steps).tasks[id].session == db.tasks[id].session
    ensures var row, saved := Final(db, steps).tasks[id], LastSave(steps, id);
            && (saved.None? ==> row == db.tasks[id])
            && (saved.Some? && saved.value.SaveTask? ==>
                  && row.parent == saved.value.parent && row.description == saved.value.description
                  && row.taskType == TypeName(saved.value.taskType)
                  && row.status == saved.value.status && row.risk == saved.value.risk)
    decreases |steps|
  {
    if steps != [] {
      TasksSayWhatWasWritten(After(db, steps[0]), steps[1..], id);
    }
  }

  /** What makes a row known: a session by being begun; a task by being saved or tried under a session that
      is known, with what it was saved with, or with its type. */
  lemma RowsBecomeKnown(db: Tables, step: Step, id: string)
    ensures var after := After(db, step);
            && (id !in db.sessions ==>
                  if step.BeginSession? && step.session == id
                  then id in after.sessions && after.sessions[id] == SessionRow(step.goal, None)
                  else id !in after.sessions)
            && (id !in db.tasks ==>
                  if step.SaveTask? && step.id == id && step.session in db.sessions
                  then && id in after.tasks && after.tasks[id].session == step.session
                       && after.tasks[id].taskType == TypeName(step.taskType)
                  else if step.RecordAttempt? && step.usage.task == id && step.usage.session in db.sessions
                  then && id in after.tasks && after.tasks[id].session == step.usage.session
                       && after.tasks[id].taskType == TypeName(step.usage.taskType)
                  else id !in after.tasks)
  {
  }

  /** An attempt reads back as it was recorded, counters up to the largest included. */
  lemma AttemptsReadBack(db: Tables, r: Usage)
    requires !Refused(db, RecordAttempt(r))
    ensures r.attempt in After(db, RecordAttempt(r)).attempts
    ensures var row := After(db, RecordAttempt(r)).attempts[r.attempt];
            && row.task == r.task && row.session == r.session && row.agent == r.agent && row.model == r.model
            && AsU64(row.latency) == r.latency && AsU64(row.input) == r.tokens.input
            && AsU64(row.output) == r.tokens.output && AsU64(row.cached) == r.tokens.cached
            && row.reported == r.tokens.reported && row.success == r.success
  {
    CastsRoundTrip(r.latency);
    CastsRoundTrip(r.tokens.input);
    CastsRoundTrip(r.tokens.output);
    CastsRoundTrip(r.tokens.cached);
    hide AsU64; hide AsI64;
  }

  /** For every life of a new store in which attempt ids are distinct and tasks keep their type. */
  lemma HistoryIsTheAggregateFromEmpty(steps: seq<Step>)
    requires AllProper(EMPTY, steps)
    ensures Agrees(Final(EMPTY, steps))
  {
    EmptyAgrees();
    HistoryIsTheAggregate(EMPTY, steps);
  }

  // ---------------------------------------------------- what a replaced row would take

  /** Deleting tasks takes their attempts with them; the history is not touched. */
  function Cascaded(db: Tables, gone: set<string>): Tables {
    db.(tasks := db.tasks - gone,
        attempts := map id | id in db.attempts && db.attempts[id].task !in gone :: db.attempts[id])
  }

  function TasksOf(db: Tables, session: string): set<string> {
    set t | t in db.tasks && db.tasks[t].session == session
  }

  /** A session begun again by deleting its row and inserting a new one: the delete cascades. */
  function SessionReplaced(db: Tables, id: string, goal: string): Tables {
    Cascaded(db, TasksOf(db, id)).(sessions := db.sessions[id := SessionRow(goal, None)])
  }

  /** A task saved again that way. */
  function TaskReplaced(db: Tables, id: string, row: TaskRow): Tables {
    var rest := Cascaded(db, {id});
    rest.(tasks := rest.tasks[id := row])
  }

  predicate NoneOf(db: Tables, gone: set<string>) {
    forall id :: id in db.attempts ==> db.attempts[id].task !in gone
  }

  /** `after` has the attempts of `db` but for those of the tasks `gone`, in the same buckets. */
  ghost predicate Bereft(db: Tables, after: Tables, gone: set<string>) {
    && Referential(db) && Referential(after) && after.history == db.history
    && (forall id :: id in after.attempts <==> id in db.attempts && db.attempts[id].task !in gone)
    && (forall id :: id in after.attempts ==>
          after.attempts[id] == db.attempts[id] && KeyOf(after, id) == KeyOf(db, id))
  }

  lemma BereftAgreesIff(db: Tables, after: Tables, gone: set<string>)
    requires Agrees(db) && Bereft(db, after, gone)
    ensures Agrees(after) <==> NoneOf(db, gone)
  {
    if NoneOf(db, gone) {
      assert after.attempts == db.attempts;
      forall key
        ensures HistoryOf(after, key) == Aggregate(after, key)
      {
        assert InBucket(after, key) == InBucket(db, key);
        assert HistoryOf(db, key) == Aggregate(db, key);
      }
    } else {
      var id :| id in db.attempts && db.attempts[id].task in gone;
      var key := KeyOf(db, id);
      BucketCount(db, key);
      Smaller(InBucket(after, key), InBucket(db, key), id);
      hide InBucket; hide Aggregate;
      DisagreesAt(after, key);
    }
  }

  /** Replacing a session's row loses exactly the attempts of its tasks, and with any of them the
      history's agreement. Beginning it again as it is done here loses neither. */
  lemma ReplacingASessionLoses(db: Tables, id: string, goal: string)
    requires Agrees(db)
    ensures var lost := SessionReplaced(db, id, goal);
            && (Agrees(lost) <==> NoneOf(db, TasksOf(db, id)))
            && (lost.attempts == db.attempts <==> NoneOf(db, TasksOf(db, id)))
    ensures var kept := After(db, BeginSession(id, goal));
            && Agrees(kept) && kept.attempts == db.attempts && kept.tasks == db.tasks
            && id in kept.sessions && (id in db.sessions ==> kept.sessions[id].outcome == db.sessions[id].outcome)
  {
    var gone, lost := TasksOf(db, id), SessionReplaced(db, id, goal);
    assert Bereft(db, lost, gone);
    BereftAgreesIff(db, lost, gone);
    SameAttemptsIff(db, gone);
    OtherStepsAgree(db, BeginSession(id, goal));
    hide Agrees; hide Bereft;
  }

  lemma SameAttemptsIff(db: Tables, gone: set<string>)
    ensures Cascaded(db, gone).attempts == db.attempts <==> NoneOf(db, gone)
  {
    if NoneOf(db, gone) {
      assert Cascaded(db, gone).attempts == db.attempts;
    } else {
      var id :| id in db.attempts && db.attempts[id].task in gone;
      assert id !in Cascaded(db, gone).attempts;
    }
  }

  /** So does replacing a task's row, even by one that says the same. */
  lemma ReplacingATaskLoses(db: Tables, id: string)
    requires Agrees(db) && id in db.tasks
    ensures var lost := TaskReplaced(db, id, db.tasks[id]);
            && lost.tasks == db.tasks
            && (Agrees(lost) <==> !HasAttempts(db, id)) && (lost.attempts == db.attempts <==> !HasAttempts(db, id))
  {
    var lost := TaskReplaced(db, id, db.tasks[id]);
    assert lost.tasks == db.tasks;
    assert Bereft(db, lost, {id});
    assert NoneOf(db, {id}) <==> !HasAttempts(db, id);
    BereftAgreesIff(db, lost, {id});
    SameAttemptsIff(db, {id});
    hide Agrees; hide Bereft;
  }

  /** The reloaded mean latency is the true mean rounded down: for a bucket that agrees with its
      attempts and fits the counters, it times the attempts is the total, less a remainder. */
  lemma ReloadedMeanIsTheMean(db: Tables, key: Key)
    requires Agrees(db) && key in db.history && ParseTypeName(key.taskType).Some?
    requires 0 < |InBucket(db, key)| < 0x1_0000_0000
    requires var total := Aggregate(db, key); 0 <= total.latency <= MAX_U64 / 2
    ensures key in Loaded(db.history)
    ensures var m, n, total := Loaded(db.history)[key].meanLatency, |InBucket(db, key)|, Aggregate(db, key).latency;
            m * n <= total < (m + 1) * n
  {
    BucketCount(db, key);
    var row := HistoryOf(db, key);
    assert row == Aggregate(db, key);
    hide Aggregate; hide InBucket; hide Agrees; hide ParseTypeName; hide StatsOf;
    MeanOf(row);
  }

  /** What recording one attempt adds: itself, its success, its latency, and the tokens it took in and
      gave out, as long as these fit the columns. */
  lemma IncrementIs(r: Usage)
    requires r.latency <= MAX_U64 / 2 && r.tokens.input + r.tokens.output <= MAX_U64 / 2
    ensures var more := Increment(r);
            && more.attempts == 1 && (more.successes == 1 <==> r.success) && (more.successes == 0 <==> !r.success)
            && more.latency == r.latency && more.tokens == r.tokens.input + r.tokens.output
  {
  }

  /** Those that succeeded. */
  function Successes(rows: map<string, AttemptRow>, ids: set<string>): set<string>
    requires ids <= rows.Keys
  {
    set id | id in ids && rows[id].success
  }

  /** The attempts of a bucket that succeeded. */
  function Succeeded(db: Tables, key: Key): set<string>
    requires Referential(db)
  {
    InBucketIsStored(db, key);
    Successes(db.attempts, InBucket(db, key))
  }

  lemma {:induction false} SumOverSuccesses(rows: map<string, AttemptRow>, ids: set<string>)
    requires ids <= rows.Keys
    ensures SumOver(rows, ids).successes == |Successes(rows, ids)|
    decreases ids
  {
    if ids != {} {
      var id :| id in ids;
      var rest := Successes(rows, ids - {id});
      SumOverWithout(rows, ids, id);
      SumOverSuccesses(rows, ids - {id});
      assert Successes(rows, ids) == if rows[id].success then rest + {id} else rest;
    }
  }

  lemma BucketSuccesses(db: Tables, key: Key)
    requires Referential(db)
    ensures Aggregate(db, key).successes == |Succeeded(db, key)| <= |InBucket(db, key)|
  {
    InBucketIsStored(db, key);
    SumOverSuccesses(db.attempts, InBucket(db, key));
    FewerOf(Succeeded(db, key), InBucket(db, key));
  }

  lemma FewerOf(a: set<string>, b: set<string>)
    requires a <= b
    ensures |a| <= |b|
  {
    assert b == a + (b - a);
  }

  /** One of `n` equal shares of the total, rounded down. */
  predicate IsShare(mean: nat, total: nat, n: nat) {
    mean * n <= total < (mean + 1) * n
  }

  /** What is loaded for a bucket: how many attempts it has and how many of them succeeded; and as its
      mean tokens, those of all its attempts shared among the successful ones, rounded down. */
  lemma ReloadedCounts(db: Tables, key: Key)
    requires Agrees(db) && key in db.history && ParseTypeName(key.taskType).Some?
    requires |InBucket(db, key)| < 0x1_0000_0000 && 0 <= Aggregate(db, key).tokens <= MAX_U64 / 2
    ensures key in Loaded(db.history)
    ensures var stats, s, tokens := Loaded(db.history)[key], |Succeeded(db, key)|, Aggregate(db, key).tokens;
            && stats.attempts == |InBucket(db, key)| && stats.successes == s
            && (s == 0 ==> stats.meanTokens == 0)
            && (s > 0 ==> IsShare(stats.meanTokens, tokens, s))
  {
    BucketCount(db, key);
    BucketSuccesses(db, key);
    var row := HistoryOf(db, key);
    assert row == Aggregate(db, key);
    hide Aggregate; hide InBucket; hide Succeeded; hide Agrees; hide ParseTypeName; hide StatsOf;
    CountsOf(row);
  }

  lemma CountsOf(row: Totals)
    requires 0 <= row.attempts < 0x1_0000_0000 && 0 <= row.successes <= row.attempts && 0 <= row.tokens <= MAX_U64 / 2
    ensures var stats := StatsOf(row);
            && stats.attempts == row.attempts && stats.successes == row.successes
            && (row.successes == 0 ==> stats.meanTokens == 0)
            && (row.successes > 0 ==> IsShare(stats.meanTokens, row.tokens, row.successes))
  {
    assert AsU32(row.attempts) == row.attempts && AsU32(row.successes) == row.successes;
    assert AsU64(row.tokens) == row.tokens;
    hide AsU32; hide AsU64;
    if row.successes > 0 {
      MeanBounds(row.tokens, row.successes);
    }
  }

  lemma NothingSums(rows: map<string, AttemptRow>)
    ensures SumOver(rows, {}) == ZERO
  {
  }

  lemma {:induction false} SumOverBoth(rows: map<string, AttemptRow>, a: set<string>, b: set<string>)
    requires a <= rows.Keys && b <= rows.Keys && a !! b
    ensures SumOver(rows, a + b) == SumOver(rows, a).Plus(SumOver(rows, b))
    decreases a
  {
    hide SumOver; hide Measure;
    if a == {} {
      NothingSums(rows);
      assert a + b == b;
    } else {
      var id :| id in a;
      var less := a - {id};
      SumOverWithout(rows, a + b, id);
      SumOverWithout(rows, a, id);
      SumOverBoth(rows, less, b);
      assert a + b - {id} == less + b;
      PlusAssociates(Measure(rows[id]), SumOver(rows, less), SumOver(rows, b));
    }
  }

  lemma PlusAssociates(a: Totals, b: Totals, c: Totals)
    ensures a.Plus(b.Plus(c)) == a.Plus(b).Plus(c)
  {
  }

  /** The tokens of a bucket's successes, and of its failures. */
  ghost function TokensOfSuccesses(db: Tables, key: Key): int
    requires Referential(db)
  {
    SumOver(db.attempts, Succeeded(db, key)).tokens
  }

  ghost function TokensOfFailures(db: Tables, key: Key): int
    requires Referential(db)
  {
    SumOver(db.attempts, InBucket(db, key) - Succeeded(db, key)).tokens
  }

  lemma TokensAdd(db: Tables, key: Key)
    requires Referential(db)
    ensures Aggregate(db, key).tokens == TokensOfSuccesses(db, key) + TokensOfFailures(db, key)
  {
    InBucketIsStored(db, key);
    var good, all := Succeeded(db, key), InBucket(db, key);
    SumOverBoth(db.attempts, good, all - good);
    assert good + (all - good) == all;
    hide SumOver;
  }

  /** So the mean tokens loaded are the mean over the successes if and only if the failed attempts took
      less than what rounding that mean down leaves room for: almost never, once one of them took any. */
  lemma LoadedTokensAreRightIff(db: Tables, key: Key)
    requires Agrees(db) && key in db.history && ParseTypeName(key.taskType).Some?
    requires |InBucket(db, key)| < 0x1_0000_0000 && Succeeded(db, key) != {}
    requires TokensOfSuccesses(db, key) >= 0 && TokensOfFailures(db, key) >= 0
    requires TokensOfSuccesses(db, key) + TokensOfFailures(db, key) <= MAX_U64 / 2
    ensures key in Loaded(db.history) && |Succeeded(db, key)| > 0
    ensures var s, good, bad := |Succeeded(db, key)|, TokensOfSuccesses(db, key), TokensOfFailures(db, key);
            Loaded(db.history)[key].meanTokens == good / s <==> FitsTheRemainder(good, bad, s)
  {
    TokensAdd(db, key);
    SomeSucceeded(db, key);
    hide *;
    ReloadedCounts(db, key);
    ShareIsRightIff(Loaded(db.history)[key].meanTokens, |Succeeded(db, key)|, TokensOfSuccesses(db, key),
                    TokensOfFailures(db, key));
  }

  /** What is left of `good` shared among `n` has room for `bad`. */
  predicate FitsTheRemainder(good: nat, bad: nat, n: nat)
    requires n > 0
  {
    good % n + bad < n
  }

  lemma SomeSucceeded(db: Tables, key: Key)
    requires Agrees(db) && Succeeded(db, key) != {}
    ensures Referential(db) && |Succeeded(db, key)| > 0
  {
  }

  lemma ShareIsRightIff(mean: nat, n: nat, good: nat, bad: nat)
    requires n > 0 && IsShare(mean, good + bad, n)
    ensures mean == good / n <==> FitsTheRemainder(good, bad, n)
  {
    var q := good / n;
    assert good == q * n + good % n && (q + 1) * n == q * n + n;
    if good % n + bad < n {
      OneQuotient(mean, q, n, good + bad);
    }
  }

  lemma OneQuotient(a: nat, b: nat, n: nat, total: nat)
    requires a * n <= total < (a + 1) * n && b * n <= total < (b + 1) * n
    ensures a == b
  {
    if a < b {
      TimesGrows(a + 1, b, n);
      assert false;
    }
    if b < a {
      TimesGrows(b + 1, a, n);
      assert false;
    }
  }

  lemma TimesGrows(a: nat, b: nat, n: nat)
    requires a <= b
    ensures a * n <= b * n
  {
  }

  lemma MeanOf(row: Totals)
    requires 0 < row.attempts < 0x1_0000_0000 && 0 <= row.latency <= MAX_U64 / 2
    ensures var m := StatsOf(row).meanLatency; m * row.attempts <= row.latency < (m + 1) * row.attempts
  {
    assert AsU32(row.attempts) == row.attempts && AsU64(row.latency) == row.latency;
    hide AsU32; hide AsU64;
    MeanBounds(row.latency, row.attempts);
  }

  lemma MeanBounds(total: nat, n: nat)
    requires n > 0
    ensures total / n * n <= total < (total / n + 1) * n
  {
    assert total == total / n * n + total % n;
  }
}
