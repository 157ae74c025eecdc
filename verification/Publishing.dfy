/** What each of the server's steps tells callers about a task, and writes to its row. */
module Publishing {
  import opened Tasks
  import opened Text
  import opened Wire
  import opened TaskMaps
  import opened TaskRows
  import opened Service
  import opened Serving

  /** A task changed in state, status and output only, at `now`. */
  predicate SameTask(held: WireTask, task: WireTask, now: string) {
    task.id == held.id && task.contextId == held.contextId && task.timestamp == Some(now)
  }

  /** The task a message starts: just submitted, in the caller's context if it names one that is not
      too long, and otherwise in one of its own. */
  predicate SubmittedAs(task: WireTask, id: string, given: Option<string>, context: string, now: string) {
    && task.id == id && task.timestamp == Some(now)
    && task.state == Submitted && task.statusText == None && task.artifacts == []
    && (match given
        case Some(name) => task.contextId == if name == [] || |name| > 128 then context else name
        case None => task.contextId == context)
  }

  predicate AtWork(held: WireTask, task: WireTask, now: string) {
    && SameTask(held, task, now)
    && task.state == Working && task.statusText == held.statusText && task.artifacts == held.artifacts
  }

  /** How a run ended: completed exactly if the orchestrator returned with success, failed otherwise;
      with its summary or message, and its transcript as the only output if there is one. A run that
      broke leaves the output as it was. */
  predicate EndedAs(held: WireTask, task: WireTask, outcome: Outcome, now: string) {
    && SameTask(held, task, now)
    && (task.state == Completed <==> outcome.Finished? && outcome.success)
    && (task.state == Failed <==> outcome.Broke? || !outcome.success)
    && match outcome
       case Broke(message) => task.statusText == Some(message) && task.artifacts == held.artifacts
       case Finished(_, summary, transcript) =>
         && task.statusText == Some(summary)
         && (transcript == [] ==> task.artifacts == [])
         && (transcript != [] ==> |task.artifacts| == 1 && task.artifacts[0].text == transcript)
  }

  predicate CancelledAs(held: WireTask, task: WireTask, now: string) {
    && SameTask(held, task, now)
    && task.state == Canceled && task.statusText == Some(CANCELLED_TEXT) && task.artifacts == held.artifacts
  }

  /** What the last process left: settled tasks as they were, the others failed with the reason why. */
  predicate SurvivedAs(stored: WireTask, task: WireTask, now: string) {
    if stored.state.Settled() then task == stored
    else
      && SameTask(stored, task, now)
      && task.state == Failed && task.statusText == Some(InterruptedByRestart()) && task.artifacts == stored.artifacts
  }

  /** The task is what callers see and what its row is read back as; without a record, the latter. */
  ghost predicate Told(s: Service, id: string, task: WireTask, kept: bool) {
    && id in s.rows && Holds(s.rows[id], task) && Stored(s.rows[id]) == Normalise(task)
    && (if kept then id in s.entries && s.entries[id].task == task else id !in s.entries)
  }

  lemma HoldsStored(row: Row, task: WireTask)
    requires Holds(row, task)
    ensures Stored(row) == Normalise(task)
  {
    hide ParseTask; hide Normalise; hide RenderState;
  }

  lemma ToldFrom(s: Service, id: string, task: WireTask)
    requires id in s.rows && Holds(s.rows[id], task) && (id in s.entries ==> s.entries[id].task == task)
    ensures Told(s, id, task, id in s.entries)
  {
    HoldsStored(s.rows[id], task);
    hide Holds; hide Stored; hide Normalise;
  }

  lemma PublishedFields(s: Service, id: string, entry: Entry, mid: string)
    ensures var t := Published(s, id, entry, mid);
            && t.rows == Persisted(s.rows, entry.task, mid)
            && t.entries == if id in s.entries then s.entries[id := entry] else s.entries
  {
    hide Persisted;
  }

  lemma PersistTells(s: Service, id: string, entry: Entry, mid: string)
    requires Backed(s) && entry.task.id == id
    ensures Told(Published(s, id, entry, mid), id, entry.task, id in s.entries)
  {
    hide *;
    BackedParts(s);
    PersistFacts(s.rows, entry.task, mid);
    PublishedFields(s, id, entry, mid);
    ToldFrom(Published(s, id, entry, mid), id, entry.task);
  }

  lemma SubmissionTells(params: Json, id: string, context: string, now: string)
    ensures SubmittedAs(Submission(params, id, context, now), id, AsStr(Pointer(params, KMessage, KContextId)),
                        context, now)
  {
    hide Pointer;
  }

  lemma ConcludedTells(held: WireTask, outcome: Outcome, now: string)
    ensures EndedAs(held, Concluded(held, outcome, now), outcome, now)
  {
  }

  lemma CancelledTells(held: WireTask, now: string)
    ensures CancelledAs(held, Cancelled(held, now), now)
  {
  }

  lemma WorkingTells(held: Entry, now: string)
    ensures AtWork(held.task, WentToWork(held, now).task, now)
  {
  }

  lemma StartedFields(s: Service, params: Json, id: string, context: string, now: string, mid: string)
    requires Enabled(s, Start(params, id, context, now, mid)) && StartRefusal(s.entries, params).None?
    ensures var t := After(s, Start(params, id, context, now, mid));
            var task := Submission(params, id, context, now);
            && t.entries == Roomy(s).entries[id := Entry(task, Begun, false)]
            && t.rows == Persisted(Roomy(s).rows, task, mid) && task.id == id
  {
    hide Roomy; hide Persisted; hide StartRefusal; hide ContextOf;
  }

  lemma StartTells(s: Service, params: Json, id: string, context: string, now: string, mid: string)
    returns (task: WireTask)
    requires Backed(s) && Enabled(s, Start(params, id, context, now, mid)) && StartRefusal(s.entries, params).None?
    ensures SubmittedAs(task, id, AsStr(Pointer(params, KMessage, KContextId)), context, now)
    ensures var t := After(s, Start(params, id, context, now, mid));
            Told(t, id, task, true) && id in t.entries && t.entries[id].run == Begun && !t.entries[id].handle
  {
    hide *;
    task := Submission(params, id, context, now);
    SubmissionTells(params, id, context, now);
    RoomKeeps(s);
    BackedParts(Roomy(s));
    StartedFields(s, params, id, context, now, mid);
    PersistFacts(Roomy(s).rows, task, mid);
    ToldFrom(After(s, Start(params, id, context, now, mid)), id, task);
  }

  lemma BeginTells(s: Service, id: string, now: string, mid: string) returns (task: WireTask)
    requires Backed(s) && Enabled(s, Begin(id, now, mid))
    ensures id in Moving(s) && AtWork(Moving(s)[id].task, task, now)
    ensures Told(After(s, Begin(id, now, mid)), id, task, id in s.entries)
  {
    MovingIs(s, id);
    var entry := WentToWork(Moving(s)[id], now);
    task := entry.task;
    WorkingTells(Moving(s)[id], now);
    PersistTells(s, id, entry, mid);
    hide Backed; hide Published; hide Moving; hide Told;
  }

  lemma EndedFields(s: Service, id: string, outcome: Outcome, now: string, mid: string)
    requires Enabled(s, End(id, outcome, now, mid))
    ensures id in Moving(s)
    ensures var t, entry := After(s, End(id, outcome, now, mid)), WentHome(Moving(s)[id], outcome, now);
            && t == Published(s, id, entry, mid) && entry.task == Concluded(Moving(s)[id].task, outcome, now)
            && entry.task.id == Moving(s)[id].task.id
            && (if id in s.entries then id in t.entries && t.entries[id].run == NoRun else id !in t.strays)
  {
    hide Moving; hide Persisted;
  }

  /** The end of a run, as callers see it. */
  lemma EndTells(s: Service, id: string, outcome: Outcome, now: string, mid: string) returns (task: WireTask)
    requires Backed(s) && Enabled(s, End(id, outcome, now, mid))
    ensures id in Moving(s) && EndedAs(Moving(s)[id].task, task, outcome, now)
    ensures var t := After(s, End(id, outcome, now, mid));
            && Told(t, id, task, id in s.entries)
            && (if id in s.entries then id in t.entries && t.entries[id].run == NoRun else id !in t.strays)
  {
    EndedFields(s, id, outcome, now, mid);
    MovingIs(s, id);
    hide *;
    task := Concluded(Moving(s)[id].task, outcome, now);
    ConcludedTells(Moving(s)[id].task, outcome, now);
    PersistTells(s, id, WentHome(Moving(s)[id], outcome, now), mid);
  }

  lemma CancelledFields(s: Service, id: string, now: string, mid: string)
    requires id in s.entries && !s.entries[id].task.state.Settled()
    ensures Enabled(s, Cancel(id, now, mid))
    ensures var e := s.entries[id];
            var entry := e.(task := Cancelled(e.task, now), run := if e.handle then NoRun else e.run);
            After(s, Cancel(id, now, mid)) == Published(s, id, entry, mid) && entry.task.id == e.task.id
  {
    hide Persisted;
  }

  /** What a restart tells of each task it takes back. */
  lemma RestartTells(rows: Table, now: string, mid: string, id: string)
    requires Durable(rows) && id in Retained(rows)
    ensures id in rows
    ensures var t := Restarted(rows, now, mid);
            Told(t, id, if id in t.entries then t.entries[id].task else Stored(rows[id]), true)
            && SurvivedAs(Stored(rows[id]), t.entries[id].task, now)
  {
    RetainedFacts(rows);
    RestartTakesUp(rows, now, mid);
    var t := Restarted(rows, now, mid);
    DurableRow(rows, id);
    RevivedIs(Stored(rows[id]), now);
    hide Restarted; hide Durable; hide Retained; hide Stored; hide Revived; hide AgeOrder; hide SurvivedAs;
    BackedParts(t);
    HeldIsStored(t, id);
  }

  lemma DurableRow(rows: Table, id: string)
    requires Durable(rows) && id in rows
    ensures Stored(rows[id]).id == id && Normalise(Stored(rows[id])) == Stored(rows[id])
  {
    WrittenIs(id, rows[id]);
  }

  lemma RevivedIs(task: WireTask, now: string)
    requires Normalise(task) == task
    ensures SurvivedAs(task, Revived(task, now), now)
  {
    hide Normalise; hide InterruptedByRestart;
  }

  lemma HeldIsStored(s: Service, id: string)
    requires Recorded(s) && id in s.entries
    ensures Told(s, id, s.entries[id].task, true)
  {
    hide ParseTask; hide Normalise; hide RenderState; hide Ascending;
  }

  // ----------------------------------------------------------- as the methods say it

  ghost predicate BeginTold(s: Service, t: Service, id: string, now: string) {
    id in Moving(s) && exists task :: AtWork(Moving(s)[id].task, task, now) && Told(t, id, task, id in s.entries)
  }

  ghost predicate EndTold(s: Service, t: Service, id: string, outcome: Outcome, now: string) {
    && id in Moving(s)
    && exists task :: EndedAs(Moving(s)[id].task, task, outcome, now) && Told(t, id, task, id in s.entries)
  }

  lemma BeginIsTold(s: Service, id: string, now: string, mid: string)
    requires Enabled(s, Begin(id, now, mid))
    ensures Backed(s) ==> BeginTold(s, After(s, Begin(id, now, mid)), id, now)
  {
    hide *;
    if Backed(s) {
      var task := BeginTells(s, id, now, mid);
      BeginToldBy(s, After(s, Begin(id, now, mid)), id, now, task);
    }
  }

  lemma BeginToldBy(s: Service, t: Service, id: string, now: string, task: WireTask)
    requires id in Moving(s) && AtWork(Moving(s)[id].task, task, now) && Told(t, id, task, id in s.entries)
    ensures BeginTold(s, t, id, now)
  {
    hide AtWork; hide Told; hide Moving;
  }

  lemma EndIsTold(s: Service, id: string, outcome: Outcome, now: string, mid: string)
    requires Enabled(s, End(id, outcome, now, mid))
    ensures Backed(s) ==> EndTold(s, After(s, End(id, outcome, now, mid)), id, outcome, now)
  {
    hide *;
    if Backed(s) {
      var task := EndTells(s, id, outcome, now, mid);
      EndToldBy(s, After(s, End(id, outcome, now, mid)), id, outcome, now, task);
    }
  }

  lemma EndToldBy(s: Service, t: Service, id: string, outcome: Outcome, now: string, task: WireTask)
    requires id in Moving(s) && EndedAs(Moving(s)[id].task, task, outcome, now) && Told(t, id, task, id in s.entries)
    ensures EndTold(s, t, id, outcome, now)
  {
    hide EndedAs; hide Told; hide Moving;
  }

  lemma CancelIsTold(s: Service, id: string, now: string, mid: string)
    ensures Enabled(s, Cancel(id, now, mid))
    ensures id in s.entries && !s.entries[id].task.state.Settled() ==>
              var task := Cancelled(s.entries[id].task, now);
              && CancelledAs(s.entries[id].task, task, now)
              && (Backed(s) ==> Told(After(s, Cancel(id, now, mid)), id, task, true))
  {
    if id in s.entries && !s.entries[id].task.state.Settled() {
      CancelledTells(s.entries[id].task, now);
      CancelledFields(s, id, now, mid);
      hide *;
      if Backed(s) {
        BackedParts(s);
        EntryId(s, id);
        var e := s.entries[id];
        PersistTells(s, id, e.(task := Cancelled(e.task, now), run := if e.handle then NoRun else e.run), mid);
      }
    }
  }

  // ---------------------------------------------------------------- everybody else

  ghost predicate SameAbout(s: Service, t: Service, id: string) {
    && (id in t.entries <==> id in s.entries) && (id in s.entries ==> t.entries[id] == s.entries[id])
    && (id in t.rows <==> id in s.rows) && (id in s.rows ==> t.rows[id] == s.rows[id])
    && (id in t.strays <==> id in s.strays) && (id in s.strays ==> t.strays[id] == s.strays[id])
  }

  predicate IsAbout(step: Step, id: string) {
    match step
    case Start(_, new_, _, _, _) => new_ == id
    case KeepHandle(moved) => moved == id
    case Begin(moved, _, _) => moved == id
    case End(moved, _, _, _) => moved == id
    case Cancel(moved, _, _) => moved == id
    case Restart(_, _) => true
  }

  lemma PublishingLeaves(s: Service, id: string, entry: Entry, mid: string, other: string)
    requires entry.task.id == id && other != id
    ensures SameAbout(s, Published(s, id, entry, mid), other) && Published(s, id, entry, mid).order == s.order
  {
    hide Newest; hide TaskJson; hide RenderState;
  }

  lemma StartingLeaves(s: Service, task: WireTask, mid: string, other: string)
    requires other != task.id && other !in Evicted(s.order, s.entries)
    ensures SameAbout(s, Admitted(Roomy(s), task, mid), other)
  {
    hide Newest; hide TaskJson; hide RenderState; hide Evicted; hide Dropping;
  }

  /** A step about one task leaves alone what callers see of every other, its row, and its run: but for
      those evicted to make room for a new one. */
  lemma OthersStay(s: Service, step: Step, other: string)
    requires Backed(s) && Enabled(s, step) && !IsAbout(step, other)
    requires step.Start? ==> other !in Evicted(s.order, s.entries)
    ensures SameAbout(s, After(s, step), other)
    ensures step.Start? || After(s, step).order == s.order
  {
    hide Evicted; hide Backed; hide Goal; hide FollowsUp; hide Unsettled; hide Admitted; hide Roomy; hide Published;
    match step
    case Start(params, id, context, now, mid) =>
      StartingLeaves(s, Submission(params, id, context, now), mid, other);
    case KeepHandle(_) =>
    case Begin(id, now, mid) =>
      MovingIs(s, id);
      PublishingLeaves(s, id, WentToWork(Moving(s)[id], now), mid, other);
    case End(id, outcome, now, mid) =>
      MovingIs(s, id);
      PublishingLeaves(s, id, WentHome(Moving(s)[id], outcome, now), mid, other);
    case Cancel(id, now, mid) =>
      if CancelRefusal(s.entries, id).None? {
        CancelledFields(s, id, now, mid);
        BackedParts(s);
        EntryId(s, id);
        var e := s.entries[id];
        PublishingLeaves(s, id, e.(task := Cancelled(e.task, now), run := if e.handle then NoRun else e.run), mid,
                         other);
      }
  }

  // ------------------------------------------------------------------ refusals

  /** What a call says with one text part. */
  lemma GoalOfAMessage(text: string, user: bool, mid: string, dialect: Dialect)
    ensures Goal(Obj(map[KMessage := MessageJson(text, user, mid, dialect)])) == Trim(text)
    ensures !FollowsUp(Obj(map[KMessage := MessageJson(text, user, mid, dialect)]))
  {
    var m := MessageJson(text, user, mid, dialect);
    var params := Obj(map[KMessage := m]);
    assert Get(params, KMessage) == Some(m);
    assert Get(m, KParts) == Some(Arr([TextPart(text, dialect)]));
    PartsTextOfOne(text, dialect);
    assert Get(m, KTaskId).None?;
  }

  /** A client that repeats a call in the old dialect, from what it reads in the new one, asks for the same. */
  lemma RetryAsksTheSame(params: Json, user: bool, mid: string)
    ensures Goal(Obj(map[KMessage := MessageJson(Goal(params), user, mid, Legacy)])) == Goal(params)
  {
    GoalOfAMessage(Goal(params), user, mid, Legacy);
    PartsTextIsTidy(Pointer(params, KMessage, KParts));
    TrimIsIdempotent(Goal(params));
  }

  /** A call is refused as a follow-up exactly if its message names a task. */
  lemma FollowUpsNameATask(message: map<Key, Json>)
    ensures FollowsUp(Obj(map[KMessage := Obj(message)]))
       <==> KTaskId in message && message[KTaskId].Str? && message[KTaskId].s != []
  {
    var params := Obj(map[KMessage := Obj(message)]);
    assert Get(params, KMessage) == Some(Obj(message));
  }

  /** Why a call to start a task is refused: nothing said, a follow-up, or 32 tasks active already, in
      that order; and a cancel: no such task, or settled already. */
  lemma RefusedBecause(entries: Entries, params: Json, id: string)
    ensures StartRefusal(entries, params) == Some(InvalidParams) <==> Goal(params) == []
    ensures StartRefusal(entries, params) == Some(UnsupportedOperation) <==> Goal(params) != [] && FollowsUp(params)
    ensures StartRefusal(entries, params) == Some(InternalError)
       <==> Goal(params) != [] && !FollowsUp(params) && |Unsettled(entries)| >= 32
    ensures CancelRefusal(entries, id) == Some(TaskNotFound) <==> id !in entries
    ensures CancelRefusal(entries, id) == Some(TaskNotCancelable) <==> id in entries && entries[id].task.state.Settled()
  {
    hide Goal; hide FollowsUp; hide Unsettled;
  }
}
