/** What the A2A server does to its tasks, one handler at a time, and what every run of it keeps. */
module Service {
  import opened Dag
  import opened Tasks
  import opened Text
  import opened Wire
  import opened TaskMaps
  import opened TaskRows

  /** The tasks in memory, their insertion order, the rows that outlive the process, and the
      strays: records already forgotten whose runs nobody stopped, which go on writing rows. */
  datatype Service = Service(entries: Entries, order: seq<string>, rows: Table, strays: Entries)

  const EMPTY := Service(map[], [], map[], map[])

  datatype Refusal = InvalidParams | UnsupportedOperation | InternalError | TaskNotFound | TaskNotCancelable

  const CANCELLED_TEXT := "cancelled at the caller's request"
  /** The status a task that was running when the process stopped is left in; only its opening words. */
  function InterruptedByRestart(): string {
    "CUMA restarted"
  }

  lemma InterruptionIsTrimmed()
    ensures InterruptedByRestart() != [] && Trimmed(InterruptedByRestart())
  {
  }

  /** How a run ended: with an outcome, or with an error. */
  datatype Outcome = Finished(success: bool, summary: string, transcript: string) | Broke(message: string)

  datatype Step =
    | Start(params: Json, id: string, context: string, now: string, mid: string)
    | KeepHandle(id: string)
    | Begin(id: string, now: string, mid: string)
    | End(id: string, outcome: Outcome, now: string, mid: string)
    | Cancel(id: string, now: string, mid: string)
    | Restart(now: string, mid: string)

  // ------------------------------------------------------------------ the steps

  function Pointer(v: Json, outer: Key, inner: Key): Option<Json> {
    var o := Get(v, outer);
    if o.Some? then Get(o.value, inner) else None
  }

  function Goal(params: Json): string {
    PartsText(Pointer(params, KMessage, KParts))
  }

  predicate FollowsUp(params: Json) {
    var task := AsStr(Pointer(params, KMessage, KTaskId));
    task.Some? && task.value != []
  }

  function ContextOf(params: Json, context: string): string {
    var given := AsStr(Pointer(params, KMessage, KContextId));
    if given.Some? && 0 < |given.value| <= 128 then given.value else context
  }

  function StartRefusal(entries: Entries, params: Json): Option<Refusal> {
    if Goal(params) == [] then Some(InvalidParams)
    else if FollowsUp(params) then Some(UnsupportedOperation)
    else if |Unsettled(entries)| >= MAX_ACTIVE_TASKS then Some(InternalError)
    else None
  }

  function CancelRefusal(entries: Entries, id: string): Option<Refusal> {
    if id !in entries then Some(TaskNotFound)
    else if entries[id].task.state.Settled() then Some(TaskNotCancelable)
    else None
  }

  function Submission(params: Json, id: string, context: string, now: string): WireTask {
    WireTask(id, ContextOf(params, context), Submitted, None, Some(now), [])
  }

  function Concluded(task: WireTask, outcome: Outcome, now: string): WireTask {
    match outcome
    case Finished(success, summary, transcript) =>
      task.(state := if success then Completed else Failed, statusText := Some(summary), timestamp := Some(now),
            artifacts := if transcript == [] then [] else [Artifact("result", transcript)])
    case Broke(message) =>
      task.(state := Failed, statusText := Some(message), timestamp := Some(now))
  }

  function Cancelled(task: WireTask, now: string): WireTask {
    task.(state := Canceled, statusText := Some(CANCELLED_TEXT), timestamp := Some(now))
  }

  ghost function Persisted(rows: Table, task: WireTask, mid: string): Table {
    Saved(rows, task.id, task.contextId, RenderState(task.state, V1), TaskJson(task, mid, V1))
  }

  /** A record rewritten, and its row with it. */
  ghost function Rewritten(s: Service, id: string, entry: Entry, mid: string): Service {
    Service(s.entries[id := entry], s.order, Persisted(s.rows, entry.task, mid), s.strays)
  }

  /** A stray moved on: there is no record to change, but a row is written all the same. */
  ghost function Strayed(s: Service, id: string, entry: Entry, mid: string): Service {
    Service(s.entries, s.order, Persisted(s.rows, entry.task, mid),
            if entry.run == NoRun then s.strays - {id} else s.strays[id := entry])
  }

  /** The runs of `gone` records that nobody stopped. */
  function Loose(entries: Entries, gone: set<string>): Entries {
    map id | id in entries && id in gone && entries[id].run != NoRun :: entries[id]
  }

  /** Room made: the oldest settled tasks forgotten, in memory and on disk. */
  function Roomy(s: Service): Service {
    var evicted := ToSet(Evicted(s.order, s.entries));
    Service(s.entries - evicted, Dropping(s.order, evicted), s.rows - evicted, s.strays + Loose(s.entries, evicted))
  }

  ghost function Admitted(s: Service, task: WireTask, mid: string): Service {
    Service(s.entries[task.id := Entry(task, Begun, false)], s.order + [task.id],
            Persisted(s.rows, task, mid), s.strays)
  }

  /** What a task the last process held comes back as. */
  function Restored(task: WireTask, now: string): WireTask {
    if task.state.Settled() then task
    else task.(state := Failed, statusText := Some(InterruptedByRestart()), timestamp := Some(now))
  }

  /** One stored body taken back; an unreadable one is passed over. */
  ghost function TakenBack(s: Service, body: Json, now: string, mid: string): Service {
    var read := ParseTask(body);
    if read.None? then s
    else
      var task := Restored(read.value, now);
      Service(s.entries[task.id := Entry(task, NoRun, false)], s.order + [task.id],
              if read.value.state.Settled() then s.rows else Persisted(s.rows, task, mid), s.strays)
  }

  ghost function AllTakenBack(s: Service, bodies: seq<Json>, now: string, mid: string): Service
    decreases |bodies|
  {
    if bodies == [] then s else AllTakenBack(TakenBack(s, bodies[0], now, mid), bodies[1..], now, mid)
  }

  /** The rows' ids from the oldest to the newest. */
  ghost function AgeOrder(rows: Table): (ids: seq<string>)
    ensures forall id :: id in ids ==> id in rows
  {
    if exists ids :: ByAge(rows, ids) then
      var ids :| ByAge(rows, ids);
      ids
    else []
  }

  ghost function Restarted(rows: Table, now: string, mid: string): Service {
    AllTakenBack(Service(map[], [], rows, map[]), Bodies(rows, Last(AgeOrder(rows), MAX_RETAINED_TASKS)), now, mid)
  }

  /** Where a run keeps its task: in the task's record, or on its own once the record is gone. */
  function Moving(s: Service): Entries {
    s.strays + s.entries
  }

  /** When a step can happen: ids are fresh, and only a live run moves. */
  predicate Enabled(s: Service, step: Step) {
    match step
    case Start(_, id, _, _, _) => id !in s.entries && id !in s.rows && id !in s.strays
    case Begin(id, _, _) => id in Moving(s) && Moving(s)[id].run == Begun
    case End(id, _, _, _) => id in Moving(s) && Moving(s)[id].run == Running
    case _ => true
  }

  function WentToWork(e: Entry, now: string): Entry {
    e.(task := e.task.(state := Working, timestamp := Some(now)), run := Running)
  }

  function WentHome(e: Entry, outcome: Outcome, now: string): Entry {
    e.(task := Concluded(e.task, outcome, now), run := NoRun)
  }

  /** What a run publishes is written to its task's record, if that is still kept, and to its row. */
  ghost function Published(s: Service, id: string, entry: Entry, mid: string): Service {
    if id in s.entries then Rewritten(s, id, entry, mid) else Strayed(s, id, entry, mid)
  }

  ghost function After(s: Service, step: Step): Service
    requires Enabled(s, step)
  {
    match step
    case Start(params, id, context, now, mid) =>
      if StartRefusal(s.entries, params).Some? then s
      else Admitted(Roomy(s), Submission(params, id, context, now), mid)
    case KeepHandle(id) =>
      if id in s.entries then s.(entries := s.entries[id := s.entries[id].(handle := true)]) else s
    case Begin(id, now, mid) =>
      Published(s, id, WentToWork(Moving(s)[id], now), mid)
    case End(id, outcome, now, mid) =>
      Published(s, id, WentHome(Moving(s)[id], outcome, now), mid)
    case Cancel(id, now, mid) =>
      if CancelRefusal(s.entries, id).Some? then s
      else
        var e := s.entries[id];
        Rewritten(s, id, e.(task := Cancelled(e.task, now), run := if e.handle then NoRun else e.run), mid)
    case Restart(now, mid) => Restarted(s.rows, now, mid)
  }

  // -------------------------------------------------------------- the invariant

  /** `order` lists exactly the records, each under its own id, and there are not too many. */
  ghost predicate Shaped(s: Service) {
    && Lists(s.order, s.entries.Keys)
    && (forall id :: id in s.entries ==> s.entries[id].task.id == id)
    && |s.entries| <= MAX_RETAINED_TASKS
  }

  /** Unsettled tasks have a live run; strays are live runs whose records are gone. */
  ghost predicate Manned(s: Service) {
    && (forall id :: id in s.entries && !s.entries[id].task.state.Settled() ==> s.entries[id].run != NoRun)
    && (forall id :: id in s.strays ==> id !in s.entries && s.strays[id].task.id == id && s.strays[id].run != NoRun)
  }

  /** A row that would be read back as the task, normalised. */
  predicate Holds(row: Row, task: WireTask) {
    && row.contextId == task.contextId
    && row.state == RenderState(task.state, V1)
    && ParseTask(row.body) == Some(Normalise(task))
  }

  /** A row as the server writes them: it is read back as a task of its id. */
  predicate Written(id: string, row: Row) {
    match ParseTask(row.body)
    case None => false
    case Some(task) => task.id == id && Holds(row, task)
  }

  /** All rows can be taken back, in one age order. */
  ghost predicate Durable(rows: Table) {
    && ByAge(rows, AgeOrder(rows))
    && forall id :: id in rows ==> Written(id, rows[id])
  }

  /** `order` is in age order. */
  ghost predicate Ascending(table: Table, ids: seq<string>) {
    && (forall id :: id in ids ==> id in table)
    && forall i, j :: 0 <= i < j < |ids| ==> table[ids[i]].created < table[ids[j]].created
  }

  /** Every record has its row, and the rows of records are in the records' order. */
  ghost predicate Recorded(s: Service) {
    && Ascending(s.rows, s.order)
    && forall id :: id in s.entries ==> id in s.rows && Holds(s.rows[id], s.entries[id].task)
  }

  /** What holds whatever happens. */
  ghost predicate Backed(s: Service) {
    Shaped(s) && Manned(s) && Durable(s.rows) && Recorded(s)
  }

  /** Exactly the unsettled tasks have a run. */
  ghost predicate Quiet(s: Service) {
    forall id :: id in s.entries ==> (s.entries[id].task.state.Settled() <==> s.entries[id].run == NoRun)
  }

  /** The rows are the records, in the same age order. */
  ghost predicate Mirrored(s: Service) {
    && ByAge(s.rows, s.order)
    && s.rows.Keys == s.entries.Keys
    && forall id :: id in s.entries ==> Holds(s.rows[id], s.entries[id].task)
  }

  ghost predicate Kept(s: Service) {
    Backed(s) && Mirrored(s)
  }

  /** As every record has its row, all that can go wrong is a row without a record. */
  lemma MirroredIffNoneExtra(s: Service)
    requires Backed(s)
    ensures Mirrored(s) <==> s.rows.Keys <= s.entries.Keys
  {
    hide Holds; hide Written;
  }

  lemma BackedIs(s: Service)
    requires Shaped(s) && Manned(s) && Durable(s.rows) && Recorded(s)
    ensures Backed(s)
  {
  }

  // ---------------------------------------------------------------- writing rows

  lemma HoldsIsWritten(row: Row, task: WireTask)
    requires Holds(row, task)
    ensures Written(task.id, row)
  {
    NormaliseIsIdempotent(task);
    NormaliseKeepsTheRest(task);
    hide Normalise; hide ParseTask; hide RenderState;
  }

  lemma AnyAgeOrder(rows: Table, ids: seq<string>)
    requires ByAge(rows, ids)
    ensures AgeOrder(rows) == ids
  {
    AgeOrderUnique(rows, AgeOrder(rows), ids);
  }

  /** Writing a task's row: it is read back as the task, keeps its place or becomes the newest,
      and no other row changes. */
  lemma PersistFacts(rows: Table, task: WireTask, mid: string)
    requires Durable(rows)
    ensures var after := Persisted(rows, task, mid);
            && Durable(after) && Holds(after[task.id], task)
            && AgeOrder(after) == (if task.id in rows then AgeOrder(rows) else AgeOrder(rows) + [task.id])
            && after.Keys == rows.Keys + {task.id}
            && (forall id :: id in rows && id != task.id ==> after[id] == rows[id])
            && (forall id :: id in rows ==> after[id].created == rows[id].created)
            && (task.id !in rows ==> forall id :: id in rows ==> rows[id].created < after[task.id].created)
  {
    TaskRoundTrip(task, mid, V1);
    hide RenderState; hide TaskJson; hide ParseTask; hide Normalise; hide ByAge; hide AgeOrder;
    var after := Persisted(rows, task, mid);
    SavedByAge(rows, AgeOrder(rows), task.id, task.contextId, RenderState(task.state, V1), TaskJson(task, mid, V1));
    HoldsIsWritten(after[task.id], task);
    AnyAgeOrder(after, if task.id in rows then AgeOrder(rows) else AgeOrder(rows) + [task.id]);
  }

  lemma SetCounts<T>(m: map<string, T>, id: string, v: T)
    ensures m[id := v].Keys == m.Keys + {id}
    ensures |m[id := v]| == if id in m then |m| else |m| + 1
  {
    assert |m.Keys| == |m| && |m[id := v].Keys| == |m[id := v]|;
    if id in m {
      assert m.Keys + {id} == m.Keys;
    }
  }

  lemma RewritingShape(s: Service, id: string, entry: Entry, mid: string)
    requires Shaped(s) && Manned(s) && id in s.entries && entry.task.id == id
    requires !entry.task.state.Settled() ==> entry.run != NoRun
    ensures Shaped(Rewritten(s, id, entry, mid)) && Manned(Rewritten(s, id, entry, mid))
  {
    hide Lists; hide Persisted;
    SetCounts(s.entries, id, entry);
    assert Rewritten(s, id, entry, mid).entries.Keys == s.entries.Keys;
  }

  lemma RewritingRecords(s: Service, id: string, entry: Entry, mid: string)
    requires Durable(s.rows) && Recorded(s) && id in s.entries && entry.task.id == id
    ensures Durable(Rewritten(s, id, entry, mid).rows) && Recorded(Rewritten(s, id, entry, mid))
    ensures Rewritten(s, id, entry, mid).rows.Keys == s.rows.Keys
  {
    hide Holds; hide Persisted; hide Durable; hide AgeOrder;
    PersistFacts(s.rows, entry.task, mid);
  }

  lemma RewritingKeeps(s: Service, id: string, entry: Entry, mid: string)
    requires Backed(s) && id in s.entries && entry.task.id == id
    requires !entry.task.state.Settled() ==> entry.run != NoRun
    ensures Backed(Rewritten(s, id, entry, mid))
    ensures Rewritten(s, id, entry, mid).rows.Keys == s.rows.Keys
  {
    hide *;
    BackedParts(s);
    RewritingShape(s, id, entry, mid);
    RewritingRecords(s, id, entry, mid);
    BackedIs(Rewritten(s, id, entry, mid));
  }

  lemma StraysStayManned(s: Service, id: string, entry: Entry, mid: string)
    requires Manned(s) && id in s.strays && entry.task.id == id
    ensures Manned(Strayed(s, id, entry, mid)) && id !in s.entries
  {
    hide Persisted;
  }

  lemma RecordsStay(s: Service, rows: Table, strays: Entries)
    requires Recorded(s)
    requires forall id :: id in s.rows ==> id in rows && rows[id].created == s.rows[id].created
    requires forall id :: id in s.entries && id in s.rows ==> id in rows && rows[id] == s.rows[id]
    ensures Recorded(Service(s.entries, s.order, rows, strays))
  {
    hide Holds;
  }

  lemma StrayedIs(s: Service, id: string, entry: Entry, mid: string)
    ensures var after := Strayed(s, id, entry, mid);
            after == Service(s.entries, s.order, Persisted(s.rows, entry.task, mid), after.strays)
  {
    hide Persisted;
  }

  lemma ShapeIsOfRecords(s: Service, rows: Table, strays: Entries)
    requires Shaped(s)
    ensures Shaped(Service(s.entries, s.order, rows, strays))
  {
  }

  /** What a stray publishes changes no record; its row comes back from where it was removed. */
  lemma StrayingKeeps(s: Service, id: string, entry: Entry, mid: string)
    requires Backed(s) && id in s.strays && entry.task.id == id
    ensures Backed(Strayed(s, id, entry, mid))
    ensures id in Strayed(s, id, entry, mid).rows && id !in s.entries
    ensures id !in s.rows ==> AgeOrder(Strayed(s, id, entry, mid).rows) == AgeOrder(s.rows) + [id]
  {
    hide *;
    BackedParts(s);
    StraysStayManned(s, id, entry, mid);
    StrayedIs(s, id, entry, mid);
    PersistFacts(s.rows, entry.task, mid);
    var after := Strayed(s, id, entry, mid);
    RecordsStay(s, after.rows, after.strays);
    RecordedHaveRows(s);
    ShapeIsOfRecords(s, after.rows, after.strays);
    BackedIs(after);
  }

  lemma BackedParts(s: Service)
    requires Backed(s)
    ensures Shaped(s) && Manned(s) && Durable(s.rows) && Recorded(s)
  {
  }

  lemma RecordedHaveRows(s: Service)
    requires Recorded(s)
    ensures forall id :: id in s.entries ==> id in s.rows
  {
    hide Holds;
  }

  // ------------------------------------------------------------------ making room

  lemma {:induction false} DroppingAscends(table: Table, ids: seq<string>, gone: set<string>)
    requires Ascending(table, ids)
    ensures Ascending(table, Dropping(ids, gone))
  {
    DroppingKeeps(ids, gone);
    if ids != [] {
      var rest := Dropping(ids[1..], gone);
      DroppingAscends(table, ids[1..], gone);
      DroppingKeeps(ids[1..], gone);
      forall j | 0 <= j < |rest|
        ensures table[ids[0]].created < table[rest[j]].created
      {
        assert rest[j] in ids[1..];
      }
    }
  }

  lemma DroppingLeaves(table: Table, ids: seq<string>, gone: set<string>)
    requires Ascending(table, ids)
    ensures Ascending(table - gone, Dropping(ids, gone))
  {
    DroppingKeeps(ids, gone);
    DroppingAscends(table, ids, gone);
    hide Dropping;
    var left := Dropping(ids, gone);
    assert forall i :: 0 <= i < |left| ==> left[i] in left;
  }

  lemma DroppingDurable(rows: Table, gone: set<string>)
    requires Durable(rows)
    ensures Durable(rows - gone)
  {
    hide Written; hide Dropping; hide AgeOrder;
    var ids := AgeOrder(rows);
    DroppingLeaves(rows, ids, gone);
    DroppingKeeps(ids, gone);
    AnyAgeOrder(rows - gone, Dropping(ids, gone));
  }

  lemma CardinalityDrops(all: set<string>, gone: set<string>)
    ensures |all - gone| <= |all|
    ensures forall x :: x in all && x in gone ==> |all - gone| < |all|
  {
    assert all == (all - gone) + (all * gone);
    assert |all| == |all - gone| + |all * gone|;
    if x :| x in all && x in gone {
      assert x in all * gone;
    }
  }

  lemma RoomFacts(s: Service, gone: set<string>)
    requires Lists(s.order, s.entries.Keys)
    ensures Lists(Dropping(s.order, gone), (s.entries - gone).Keys)
    ensures |s.entries - gone| <= |s.entries|
    ensures forall x :: x in s.entries && x in gone ==> |s.entries - gone| < |s.entries|
  {
    hide Dropping;
    DroppingKeeps(s.order, gone);
    assert (s.entries - gone).Keys == s.entries.Keys - gone;
    CardinalityDrops(s.entries.Keys, gone);
    assert |s.entries.Keys| == |s.entries| && |(s.entries - gone).Keys| == |s.entries - gone|;
  }

  lemma MannedWithLoose(s: Service, gone: set<string>, loose: Entries, order: seq<string>, rows: Table)
    requires Manned(s) && forall id :: id in s.entries ==> s.entries[id].task.id == id
    requires forall id :: id in loose ==>
               id in s.entries && id in gone && s.entries[id].run != NoRun && loose[id] == s.entries[id]
    ensures Manned(Service(s.entries - gone, order, rows, s.strays + loose))
  {
    var strays := s.strays + loose;
    assert forall id :: id in strays ==> if id in loose then strays[id] == loose[id] else strays[id] == s.strays[id];
  }

  lemma RoomManned(s: Service)
    requires Shaped(s) && Manned(s)
    ensures Manned(Roomy(s))
  {
    hide Manned; hide Evicted; hide Lists; hide Dropping; hide Loose; hide ToSet;
    var gone := ToSet(Evicted(s.order, s.entries));
    LooseFacts(s.entries, gone);
    MannedWithLoose(s, gone, Loose(s.entries, gone), Dropping(s.order, gone), s.rows - gone);
  }

  lemma LooseFacts(entries: Entries, gone: set<string>)
    ensures forall id :: id in Loose(entries, gone) ==>
              id in entries && id in gone && entries[id].run != NoRun && Loose(entries, gone)[id] == entries[id]
  {
  }

  lemma RoomRecorded(s: Service)
    requires Recorded(s)
    ensures Recorded(Roomy(s))
  {
    hide Evicted; hide Holds; hide Dropping; hide Ascending;
    DroppingLeaves(s.rows, s.order, ToSet(Evicted(s.order, s.entries)));
  }

  lemma RoomShaped(s: Service)
    requires Shaped(s)
    ensures Shaped(Roomy(s)) && |Roomy(s).entries| <= |s.entries|
  {
    hide Evicted; hide Lists; hide Dropping; hide Loose;
    RoomFacts(s, ToSet(Evicted(s.order, s.entries)));
  }

  lemma RoomDurable(s: Service)
    requires Durable(s.rows)
    ensures Durable(Roomy(s).rows)
  {
    hide Evicted; hide Dropping; hide Durable; hide Loose;
    DroppingDurable(s.rows, ToSet(Evicted(s.order, s.entries)));
  }

  lemma RoomKeeps(s: Service)
    requires Backed(s)
    ensures Backed(Roomy(s)) && |Roomy(s).entries| <= |s.entries|
  {
    hide *;
    BackedParts(s);
    RoomManned(s);
    RoomRecorded(s);
    RoomShaped(s);
    RoomDurable(s);
    BackedIs(Roomy(s));
  }

  lemma RoomKeepsKeys(s: Service)
    requires s.rows.Keys <= s.entries.Keys
    ensures Roomy(s).rows.Keys <= Roomy(s).entries.Keys
  {
    hide Evicted; hide Dropping; hide Loose;
  }

  /** Fewer than 32 run, so of 512 one can go: after making room there is some. */
  lemma RoomIsThere(s: Service)
    requires Shaped(s) && |Unsettled(s.entries)| < MAX_ACTIVE_TASKS
    ensures |Roomy(s).entries| < MAX_RETAINED_TASKS
  {
    hide Lists; hide Dropping; hide SettledIds; hide Evictable; hide Unsettled;
    var evicted := Evicted(s.order, s.entries);
    RoomFacts(s, ToSet(evicted));
    if |s.entries| == MAX_RETAINED_TASKS {
      SomeoneIsSettled(s.order, s.entries);
      assert evicted[0] in s.entries by {
        SettledIdsAreSettled(s.order, s.entries);
        assert evicted[0] == SettledIds(s.order, s.entries)[0];
        ListedIsKey(s.order, s.entries.Keys, evicted[0]);
      }
      assert evicted[0] in ToSet(evicted);
    }
  }

  lemma ListedIsKey(order: seq<string>, keys: set<string>, id: string)
    requires Lists(order, keys)
    ensures id in order <==> id in keys
  {
  }

  lemma AdmittingKeepsShape(s: Service, task: WireTask, mid: string)
    requires Shaped(s) && Manned(s) && task.id !in s.entries && task.id !in s.strays
    requires |s.entries| < MAX_RETAINED_TASKS
    ensures Shaped(Admitted(s, task, mid)) && Manned(Admitted(s, task, mid))
  {
    hide Lists; hide Persisted;
    ListsAppend(s.order, s.entries.Keys, task.id);
    SetCounts(s.entries, task.id, Entry(task, Begun, false));
  }

  lemma AscendingGrows(rows: Table, after: Table, order: seq<string>, id: string)
    requires Ascending(rows, order) && id in after && id !in rows
    requires forall other :: other in rows ==>
               other in after && after[other].created == rows[other].created < after[id].created
    ensures Ascending(after, order + [id])
  {
    var more := order + [id];
    forall i, j | 0 <= i < j < |more|
      ensures after[more[i]].created < after[more[j]].created
    {
      assert order[i] in rows;
      assert j < |order| ==> order[j] in rows;
    }
  }

  lemma AdmittingKeepsRows(s: Service, task: WireTask, mid: string)
    requires Durable(s.rows) && Recorded(s) && task.id !in s.rows
    ensures Durable(Admitted(s, task, mid).rows) && Recorded(Admitted(s, task, mid))
  {
    hide Holds; hide Durable; hide Persisted; hide Ascending;
    PersistFacts(s.rows, task, mid);
    AscendingGrows(s.rows, Persisted(s.rows, task, mid), s.order, task.id);
  }

  lemma AdmittingKeeps(s: Service, task: WireTask, mid: string)
    requires Backed(s) && task.id !in s.entries && task.id !in s.rows && task.id !in s.strays
    requires |s.entries| < MAX_RETAINED_TASKS
    ensures Backed(Admitted(s, task, mid))
    ensures s.rows.Keys <= s.entries.Keys ==> Admitted(s, task, mid).rows.Keys <= Admitted(s, task, mid).entries.Keys
  {
    AdmittingKeepsShape(s, task, mid);
    AdmittingKeepsRows(s, task, mid);
    hide Shaped; hide Manned; hide Durable; hide Recorded;
    PersistFacts(s.rows, task, mid);
    hide Persisted;
  }

  // ---------------------------------------------------------------- the restart

  /** A task as the next process has it: normalised, and failed if it was running. */
  function Revived(task: WireTask, now: string): WireTask {
    Restored(Normalise(task), now)
  }

  lemma NormaliseKeepsTheRest(task: WireTask)
    ensures Normalise(task).id == task.id && Normalise(task).contextId == task.contextId
    ensures Normalise(task).state == task.state && Normalise(task).timestamp == task.timestamp
  {
  }

  lemma RevivedFacts(task: WireTask, now: string)
    ensures Revived(task, now).id == task.id && Revived(task, now).state.Settled()
    ensures Tidy(Revived(task, now)) && Normalise(Revived(task, now)) == Revived(task, now)
    ensures forall later :: Revived(Revived(task, now), later) == Revived(task, now)
    ensures task.state.Settled() ==> Revived(task, now) == Normalise(task)
  {
    hide Normalise; hide InterruptedByRestart; hide Trimmed;
    InterruptionIsTrimmed();
    NormaliseIsIdempotent(task);
    NormaliseIsIdempotent(Revived(task, now));
    NormaliseKeepsTheRest(task);
  }

  lemma RevivedOfNormal(task: WireTask, now: string)
    ensures Revived(Normalise(task), now) == Revived(task, now)
  {
    NormaliseIsIdempotent(task);
  }

  /** The task a row is read back as. */
  function Stored(row: Row): WireTask {
    match ParseTask(row.body)
    case Some(task) => task
    case None => WireTask("", "", TaskState.Unknown, None, None, [])
  }

  lemma WrittenIs(id: string, row: Row)
    requires Written(id, row)
    ensures Stored(row).id == id && Holds(row, Stored(row)) && Normalise(Stored(row)) == Stored(row)
    ensures ParseTask(row.body) == Some(Normalise(Stored(row)))
  {
    hide ParseTask; hide Normalise; hide RenderState;
  }

  /** The rows a restart takes back: the newest, oldest first. */
  ghost function Retained(rows: Table): seq<string> {
    Last(AgeOrder(rows), MAX_RETAINED_TASKS)
  }

  lemma RetainedFacts(rows: Table)
    requires Durable(rows)
    ensures var ids := Retained(rows);
            && (forall id :: id in ids ==> id in rows)
            && Lists(ids, ToSet(ids)) && Ascending(rows, ids)
            && |ids| <= MAX_RETAINED_TASKS
  {
    hide Written; hide AgeOrder;
    var age, ids := AgeOrder(rows), Retained(rows);
    forall i | 0 <= i < |ids|
      ensures ids[i] == age[|age| - |ids| + i]
    {
    }
  }

  /** Where one row stands while the rows are being taken back. */
  ghost predicate Placed(rows: Table, cur: Service, id: string, done: bool, now: string) {
    && id in rows && id in cur.rows
    && var task := Stored(rows[id]);
       if done then
         && id in cur.entries && cur.entries[id] == Entry(Revived(task, now), NoRun, false)
         && Holds(cur.rows[id], Revived(task, now))
         && (task.state.Settled() ==> cur.rows[id] == rows[id])
       else cur.rows[id] == rows[id]
  }

  /** The oldest `k` of the retained rows have been taken back. */
  ghost predicate Midway(rows: Table, cur: Service, k: nat, now: string) {
    var ids := Retained(rows);
    && k <= |ids|
    && cur.order == ids[..k] && cur.strays == map[]
    && cur.entries.Keys == ToSet(ids[..k])
    && Durable(cur.rows) && AgeOrder(cur.rows) == AgeOrder(rows) && cur.rows.Keys == rows.Keys
    && (forall id :: id in rows ==> cur.rows[id].created == rows[id].created)
    && (forall id :: id in rows && id !in ids ==> cur.rows[id] == rows[id])
    && forall i :: 0 <= i < |ids| ==> Placed(rows, cur, ids[i], i < k, now)
  }

  lemma TakingBackStarts(rows: Table, now: string)
    requires Durable(rows)
    ensures Midway(rows, Service(map[], [], rows, map[]), 0, now)
  {
    RetainedFacts(rows);
    hide Holds; hide Durable; hide Retained; hide Stored;
    var ids := Retained(rows);
    assert forall i :: 0 <= i < |ids| ==> ids[i] in ids;
  }

  /** The rows after one task was taken back: rewritten only if it had been running. */
  ghost function RowsTakenBack(rows: Table, task: WireTask, now: string, mid: string): Table {
    if task.state.Settled() then rows else Persisted(rows, Revived(task, now), mid)
  }

  lemma RowsTakenBackFacts(rows: Table, task: WireTask, now: string, mid: string)
    requires Durable(rows) && task.id in rows && Holds(rows[task.id], task)
    ensures var after := RowsTakenBack(rows, task, now, mid);
            && Durable(after) && AgeOrder(after) == AgeOrder(rows) && after.Keys == rows.Keys
            && (forall id :: id in rows ==> after[id].created == rows[id].created)
            && Holds(after[task.id], Revived(task, now))
            && (task.state.Settled() ==> after == rows)
            && forall other :: other in rows && other != task.id ==> after[other] == rows[other]
  {
    hide Durable; hide Persisted; hide Normalise; hide ParseTask; hide RenderState; hide Tidy; hide Revived;
    hide AgeOrder;
    RevivedFacts(task, now);
    NormaliseKeepsTheRest(task);
    NormaliseIsIdempotent(task);
    if !task.state.Settled() {
      PersistFacts(rows, Revived(task, now), mid);
      assert rows.Keys + {task.id} == rows.Keys;
    }
  }

  /** A readable body is taken back as the task it was written for, revived. */
  lemma TakenBackIs(cur: Service, body: Json, task: WireTask, now: string, mid: string)
    requires ParseTask(body) == Some(Normalise(task))
    ensures TakenBack(cur, body, now, mid) ==
            Service(cur.entries[task.id := Entry(Revived(task, now), NoRun, false)], cur.order + [task.id],
                    RowsTakenBack(cur.rows, task, now, mid), cur.strays)
  {
    hide ParseTask; hide Normalise; hide Persisted; hide Restored; hide Tidy;
    RevivedFacts(task, now);
    NormaliseKeepsTheRest(task);
  }

  lemma NextId(order: seq<string>, k: nat)
    requires k < |order|
    ensures order[..k + 1] == order[..k] + [order[k]]
    ensures ToSet(order[..k + 1]) == ToSet(order[..k]) + {order[k]}
  {
    assert order[..k + 1] == order[..k] + [order[k]];
  }

  lemma RetainedAt(rows: Table, k: nat)
    requires Durable(rows) && k < |Retained(rows)|
    ensures var id := Retained(rows)[k];
            && id in rows && Written(id, rows[id])
            && forall i :: 0 <= i < |Retained(rows)| && i != k ==> Retained(rows)[i] != id
  {
    RetainedFacts(rows);
    hide Written; hide Retained;
    assert Retained(rows)[k] in Retained(rows);
  }

  lemma TakingBackStep(rows: Table, cur: Service, k: nat, now: string, mid: string)
    requires Durable(rows) && Midway(rows, cur, k, now) && k < |Retained(rows)| && Retained(rows)[k] in rows
    ensures Midway(rows, TakenBack(cur, rows[Retained(rows)[k]].body, now, mid), k + 1, now)
  {
    hide Durable; hide TakenBack; hide RowsTakenBack; hide ToSet; hide Revived; hide ParseTask; hide Normalise;
    hide RenderState; hide Written; hide AgeOrder; hide Retained; hide Stored;
    RetainedAt(rows, k);
    var ids := Retained(rows);
    var id := ids[k];
    var task := Stored(rows[id]);
    WrittenIs(id, rows[id]);
    var after := TakenBack(cur, rows[id].body, now, mid);
    assert Placed(rows, cur, id, k < k, now);
    TakenBackIs(cur, rows[id].body, task, now, mid);
    RowsTakenBackFacts(cur.rows, task, now, mid);
    NextId(ids, k);
    hide Holds;
    assert id in ids;
    forall i | 0 <= i < |ids|
      ensures Placed(rows, after, ids[i], i < k + 1, now)
    {
      assert Placed(rows, cur, ids[i], i < k, now);
    }
  }

  lemma {:induction false} TakingBackTheRest(rows: Table, cur: Service, k: nat, now: string, mid: string)
    requires Durable(rows) && Midway(rows, cur, k, now)
    requires forall id :: id in Retained(rows) ==> id in rows
    ensures Midway(rows, AllTakenBack(cur, Bodies(rows, Retained(rows))[k..], now, mid), |Retained(rows)|, now)
    decreases |Retained(rows)| - k
  {
    hide Durable; hide Midway; hide TakenBack; hide Retained;
    var ids := Retained(rows);
    assert k <= |ids| by { MidwayWithin(rows, cur, k, now); }
    var bodies := Bodies(rows, ids);
    if k < |ids| {
      assert ids[k] in ids;
      TakingBackStep(rows, cur, k, now, mid);
      TakingBackTheRest(rows, TakenBack(cur, bodies[k], now, mid), k + 1, now, mid);
      assert bodies[k..][0] == bodies[k] && bodies[k..][1..] == bodies[k + 1..];
    } else {
      assert bodies[k..] == [];
    }
  }

  lemma MidwayWithin(rows: Table, cur: Service, k: nat, now: string)
    requires Midway(rows, cur, k, now)
    ensures k <= |Retained(rows)|
  {
  }

  lemma RestartIsMidway(rows: Table, now: string, mid: string)
    requires Durable(rows)
    ensures Midway(rows, Restarted(rows, now, mid), |Retained(rows)|, now)
  {
    TakingBackStarts(rows, now);
    RetainedFacts(rows);
    hide Midway; hide Durable; hide AgeOrder; hide AllTakenBack;
    TakingBackTheRest(rows, Service(map[], [], rows, map[]), 0, now, mid);
    assert Bodies(rows, Retained(rows))[0..] == Bodies(rows, Retained(rows));
  }

  /** What a restart makes of any rows: the newest 512 come back as records without a run, each
      as what its row says, revived; older rows stay as they are, without a record. */
  ghost predicate TakenUp(rows: Table, r: Service, now: string) {
    && r.order == Retained(rows) && r.strays == map[]
    && r.rows.Keys == rows.Keys && AgeOrder(r.rows) == AgeOrder(rows)
    && r.entries.Keys == ToSet(Retained(rows))
    && (forall id :: id in r.entries && id in rows ==>
          r.entries[id] == Entry(Revived(Stored(rows[id]), now), NoRun, false))
    && (forall id :: id in rows && id in r.rows && (id !in r.entries || Stored(rows[id]).state.Settled()) ==>
          r.rows[id] == rows[id])
  }

  lemma RestartTakesUp(rows: Table, now: string, mid: string)
    requires Durable(rows)
    ensures TakenUp(rows, Restarted(rows, now, mid), now) && Backed(Restarted(rows, now, mid))
  {
    RestartIsMidway(rows, now, mid);
    var r, ids := Restarted(rows, now, mid), Retained(rows);
    hide Restarted;
    MidwayTakesUp(rows, r, now);
    MidwayIsBacked(rows, r, now);
  }

  lemma MidwayEntry(rows: Table, r: Service, id: string, now: string)
    requires Durable(rows) && Midway(rows, r, |Retained(rows)|, now) && id in r.entries
    ensures id in rows && id in r.rows && id in Retained(rows)
    ensures r.entries[id] == Entry(Revived(Stored(rows[id]), now), NoRun, false) && r.entries[id].task.id == id
    ensures r.entries[id].task.state.Settled()
    ensures Holds(r.rows[id], r.entries[id].task)
    ensures Stored(rows[id]).state.Settled() ==> r.rows[id] == rows[id]
  {
    hide Holds; hide Revived; hide Stored; hide Retained; hide Written;
    var ids := Retained(rows);
    assert ids[..|ids|] == ids;
    assert id in ids;
    var i :| 0 <= i < |ids| && ids[i] == id;
    assert Placed(rows, r, ids[i], i < |ids|, now);
    WrittenIs(id, rows[id]);
    RevivedFacts(Stored(rows[id]), now);
  }

  lemma MidwayTakesUp(rows: Table, r: Service, now: string)
    requires Durable(rows) && Midway(rows, r, |Retained(rows)|, now)
    ensures TakenUp(rows, r, now)
  {
    hide Holds; hide Revived; hide Stored; hide Retained; hide Durable; hide Placed; hide AgeOrder;
    var ids := Retained(rows);
    assert ids[..|ids|] == ids;
    forall id | id in r.entries
      ensures id in rows && id in r.rows
      ensures r.entries[id] == Entry(Revived(Stored(rows[id]), now), NoRun, false)
      ensures Stored(rows[id]).state.Settled() ==> r.rows[id] == rows[id]
    {
      MidwayEntry(rows, r, id, now);
    }
  }

  lemma MidwayOrder(rows: Table, r: Service, now: string)
    requires Midway(rows, r, |Retained(rows)|, now)
    ensures r.order == Retained(rows) && r.entries.Keys == ToSet(r.order) && r.strays == map[]
    ensures Durable(r.rows) && r.rows.Keys == rows.Keys
    ensures forall id :: id in rows ==> r.rows[id].created == rows[id].created
  {
    hide Retained; hide Durable; hide Placed; hide AgeOrder; hide ToSet;
    var ids := Retained(rows);
    assert ids[..|ids|] == ids;
  }

  lemma SameAges(rows: Table, after: Table, ids: seq<string>)
    requires Ascending(rows, ids) && after.Keys == rows.Keys
    requires forall id :: id in rows ==> after[id].created == rows[id].created
    ensures Ascending(after, ids)
  {
    assert forall i :: 0 <= i < |ids| ==> ids[i] in ids;
  }

  lemma MidwayShape(rows: Table, r: Service, now: string)
    requires Durable(rows) && Midway(rows, r, |Retained(rows)|, now)
    ensures Lists(r.order, r.entries.Keys) && Ascending(r.rows, r.order) && Durable(r.rows) && r.strays == map[]
    ensures |r.entries| <= MAX_RETAINED_TASKS
  {
    RetainedFacts(rows);
    hide *;
    MidwayOrder(rows, r, now);
    ListedFits(r.order, r.entries.Keys);
    assert |r.entries.Keys| == |r.entries|;
    SameAges(rows, r.rows, r.order);
  }

  lemma BackedFrom(s: Service)
    requires Lists(s.order, s.entries.Keys) && Ascending(s.rows, s.order) && Durable(s.rows) && s.strays == map[]
    requires |s.entries| <= MAX_RETAINED_TASKS
    requires forall id :: id in s.entries ==>
               && id in s.rows && s.entries[id].task.id == id && s.entries[id].task.state.Settled()
               && Holds(s.rows[id], s.entries[id].task)
    ensures Backed(s)
  {
    hide Holds; hide Durable; hide Lists; hide Ascending;
  }

  lemma MidwayIsBacked(rows: Table, r: Service, now: string)
    requires Durable(rows) && Midway(rows, r, |Retained(rows)|, now)
    ensures Backed(r)
  {
    hide *;
    MidwayShape(rows, r, now);
    forall id | id in r.entries
      ensures id in r.rows && r.entries[id].task.id == id && r.entries[id].task.state.Settled()
      ensures Holds(r.rows[id], r.entries[id].task)
    {
      MidwayEntry(rows, r, id, now);
    }
    BackedFrom(r);
  }

  lemma {:induction false} ListedFits(ids: seq<string>, keys: set<string>)
    requires Lists(ids, keys)
    ensures |keys| == |ids|
  {
    if ids == [] {
      assert keys == {};
    } else {
      var n := |ids| - 1;
      assert ids == ids[..n] + [ids[n]];
      ListedFits(ids[..n], keys - {ids[n]});
    }
  }

  /** The next process: the same tasks in the same order, each revived; settled ones' rows untouched. */
  ghost predicate Reborn(s: Service, r: Service, now: string) {
    && r.order == s.order && r.strays == map[]
    && r.entries == (map id | id in s.entries :: Entry(Revived(s.entries[id].task, now), NoRun, false))
    && r.rows.Keys == s.rows.Keys
    && forall id :: id in s.entries && s.entries[id].task.state.Settled() && id in s.rows ==> r.rows[id] == s.rows[id]
  }

  lemma KeptOrder(s: Service)
    requires Kept(s)
    ensures AgeOrder(s.rows) == s.order == Retained(s.rows) && ToSet(s.order) == s.entries.Keys == s.rows.Keys
  {
    hide Holds; hide Written; hide AgeOrder;
    AnyAgeOrder(s.rows, s.order);
    ListedFits(s.order, s.entries.Keys);
  }

  lemma KeptRow(s: Service, id: string)
    requires Kept(s) && id in s.entries
    ensures id in s.rows && Stored(s.rows[id]) == Normalise(s.entries[id].task)
  {
    hide ParseTask; hide Normalise; hide RenderState;
  }

  lemma KeptRevived(s: Service, id: string, now: string)
    requires Kept(s) && id in s.entries
    ensures id in s.rows && Revived(Stored(s.rows[id]), now) == Revived(s.entries[id].task, now)
    ensures Stored(s.rows[id]).state == s.entries[id].task.state
  {
    hide Kept; hide Normalise; hide Revived; hide Stored;
    KeptRow(s, id);
    RevivedOfNormal(s.entries[id].task, now);
    NormaliseKeepsTheRest(s.entries[id].task);
  }

  lemma TakenUpIsReborn(s: Service, r: Service, now: string)
    requires Kept(s) && TakenUp(s.rows, r, now)
    ensures Reborn(s, r, now) && r.rows.Keys == r.entries.Keys
  {
    hide Kept; hide Revived; hide Stored; hide Retained; hide AgeOrder;
    KeptOrder(s);
    hide ToSet;
    forall id | id in s.entries
      ensures id in s.rows && Revived(Stored(s.rows[id]), now) == Revived(s.entries[id].task, now)
      ensures Stored(s.rows[id]).state == s.entries[id].task.state
    {
      KeptRevived(s, id, now);
    }
  }

  /** After a crash between two steps, restarting brings every task back: settled ones with the
      state and normalised text they had, the others failed. */
  lemma RestartRevives(s: Service, now: string, mid: string)
    requires Kept(s)
    ensures Kept(Restarted(s.rows, now, mid)) && Reborn(s, Restarted(s.rows, now, mid), now)
  {
    hide *;
    KeptIsBacked(s);
    RestartTakesUp(s.rows, now, mid);
    var r := Restarted(s.rows, now, mid);
    TakenUpIsReborn(s, r, now);
    MirroredIffNoneExtra(r);
    KeptIs(r);
  }

  lemma KeptIsBacked(s: Service)
    requires Kept(s)
    ensures Backed(s) && Durable(s.rows)
  {
  }

  lemma KeptIs(s: Service)
    requires Backed(s) && Mirrored(s)
    ensures Kept(s)
  {
  }

  /** What one restart brings back, another one brings back unchanged: records, order and rows. */
  lemma SecondRestartChangesNothing(s: Service, now: string, mid: string, later: string, mid': string)
    requires Kept(s)
    ensures var r := Restarted(s.rows, now, mid);
            Restarted(r.rows, later, mid') == r
  {
    var r := Restarted(s.rows, now, mid);
    RestartRevives(s, now, mid);
    RestartRevives(r, later, mid');
    RebornTwice(s, r, Restarted(r.rows, later, mid'), now, later);
  }

  lemma RebornTwice(s: Service, r: Service, again: Service, now: string, later: string)
    requires Kept(r) && Kept(again) && Reborn(s, r, now) && Reborn(r, again, later)
    ensures again == r
  {
    hide Kept; hide Revived;
    KeptKeys(r);
    KeptKeys(again);
    forall id | id in r.entries
      ensures id in again.entries && again.entries[id] == r.entries[id] && again.rows[id] == r.rows[id]
    {
      RevivedFacts(s.entries[id].task, now);
      assert Revived(Revived(s.entries[id].task, now), later) == Revived(s.entries[id].task, now);
    }
    hide Reborn;
    assert again.entries.Keys == r.entries.Keys && again.rows.Keys == r.rows.Keys by { RebornKeys(r, again, later); }
  }

  lemma RebornKeys(s: Service, r: Service, now: string)
    requires Reborn(s, r, now)
    ensures r.order == s.order && r.entries.Keys == s.entries.Keys && r.rows.Keys == s.rows.Keys
  {
  }

  lemma KeptKeys(s: Service)
    requires Kept(s)
    ensures s.rows.Keys == s.entries.Keys
  {
  }
}
