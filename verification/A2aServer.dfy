/** CUMA's A2A endpoint: the handlers, over a shared task map and a durable store. */
module A2aServers {
  import opened Dag
  import opened Tasks
  import opened Wire
  import opened TaskMaps
  import opened TaskRows
  import opened Service
  import opened Publishing

  const MAX_PAGE_SIZE: nat := 100

  /** What a call answers with: a result or a JSON-RPC error. */
  datatype Reply<T> = Result(value: T) | Error(refusal: Refusal)

  class A2aServer {
    const tasks: TaskMap
    const store: TaskStore
    /** Runs that outlived their records; each still holds its task and the store. */
    var strays: Entries

    ghost function State(): Service
      reads this, tasks, store
    {
      Service(tasks.entries, tasks.order, store.rows, strays)
    }

    /** A server that keeps its tasks in `store`, and takes back the ones it already holds. */
    constructor WithStore(store: TaskStore, now: string, mid: string)
      requires ByAge(store.rows, AgeOrder(store.rows))
      modifies store
      ensures this.store == store && fresh(tasks)
      ensures State() == Restarted(old(store.rows), now, mid)
    {
      this.store := store;
      strays := map[];
      tasks := new TaskMap();
      new;
      ghost var rows := store.rows;
      var bodies := store.Load(MAX_RETAINED_TASKS, AgeOrder(store.rows));
      var i := 0;
      assert bodies[0..] == bodies;
      hide TakenBack; hide AgeOrder; hide Bodies; hide ParseTask; hide RenderState; hide TaskJson;
      while i < |bodies|
        invariant i <= |bodies|
        invariant AllTakenBack(State(), bodies[i..], now, mid) == Restarted(rows, now, mid)
      {
        assert bodies[i..][0] == bodies[i] && bodies[i..][1..] == bodies[i + 1..];
        TakeBack(bodies[i], now, mid);
        i := i + 1;
      }
    }

    method TakeBack(body: Json, now: string, mid: string)
      modifies tasks, store
      ensures State() == TakenBack(old(State()), body, now, mid)
    {
      var read := ParseTask(body);
      if read.Some? {
        var task := read.value;
        if !task.state.Settled() {
          task := task.(state := Failed, statusText := Some(InterruptedByRestart()), timestamp := Some(now));
          Persist(task, mid);
        }
        tasks.InsertSettled(task);
      }
    }

    method Persist(task: WireTask, mid: string)
      modifies store
      ensures store.rows == Persisted(old(store.rows), task, mid)
    {
      store.Save(task.id, task.contextId, RenderState(task.state, V1), TaskJson(task, mid, V1));
    }

    /** Make room for one more, and forget on disk what was dropped. */
    method MakeRoom()
      requires tasks.Valid()
      modifies tasks, store, this`strays
      ensures State() == Roomy(old(State()))
    {
      hide Evicted; hide Dropping;
      ghost var rows := store.rows;
      var entries := tasks.entries;
      var evicted := tasks.MakeRoom();
      // Forgetting a record does not stop its run.
      strays := strays + Loose(entries, ToSet(evicted));
      var k := 0;
      assert rows - ToSet(evicted[..0]) == rows;
      while k < |evicted|
        modifies store
        invariant k <= |evicted|
        invariant store.rows == rows - ToSet(evicted[..k])
      {
        NextId(evicted, k);
        hide ToSet;
        store.Remove(evicted[k]);
        k := k + 1;
      }
      assert evicted[..k] == evicted;
    }

    /** Create a task for a message and start running it. */
    method Start(params: Json, id: string, context: string, now: string, mid: string) returns (reply: Reply<WireTask>)
      requires tasks.Valid() && Enabled(State(), Step.Start(params, id, context, now, mid))
      modifies tasks, store, this`strays
      ensures State() == After(old(State()), Step.Start(params, id, context, now, mid))
      ensures var refusal := StartRefusal(old(tasks.entries), params);
              reply == if refusal.Some? then Error(refusal.value) else Result(Submission(params, id, context, now))
      ensures reply.Result? ==>
                SubmittedAs(reply.value, id, AsStr(Pointer(params, KMessage, KContextId)), context, now)
    {
      SubmissionTells(params, id, context, now);
      if Goal(params) == [] {
        return Error(InvalidParams);
      }
      if FollowsUp(params) {
        return Error(UnsupportedOperation);
      }
      var initial := Submission(params, id, context, now);
      var active := tasks.Active();
      if active >= MAX_ACTIVE_TASKS {
        return Error(InternalError);
      }
      hide Roomy; hide Persisted; hide Goal; hide FollowsUp; hide Unsettled;
      MakeRoom();
      tasks.entries := tasks.entries[id := Entry(initial, Begun, false)];
      tasks.order := tasks.order + [id];
      Persist(initial, mid);
      return Result(initial);
    }

    /** The abort handle of a started run, stored once the run exists. */
    method KeepHandle(id: string)
      modifies tasks
      ensures State() == After(old(State()), Step.KeepHandle(id))
    {
      if id in tasks.entries {
        tasks.entries := tasks.entries[id := tasks.entries[id].(handle := true)];
      }
    }

    /** Overwrite a task's snapshot, and persist it. */
    method Publish(id: string, entry: Entry, mid: string)
      modifies tasks, store
      ensures State() == Rewritten(old(State()), id, entry, mid)
    {
      tasks.entries := tasks.entries[id := entry];
      Persist(entry.task, mid);
    }

    /** The task a live run holds. */
    function Held(id: string): (e: Entry)
      requires id in Moving(State())
      reads this, tasks, store
      ensures e == Moving(State())[id]
    {
      if id in tasks.entries then tasks.entries[id] else strays[id]
    }

    /** What a run publishes: its task's record, if that is still kept, and its row all the same. */
    method Set(id: string, entry: Entry, mid: string)
      requires id in Moving(State())
      modifies tasks, store, this`strays
      ensures State() == Published(old(State()), id, entry, mid)
    {
      if id in tasks.entries {
        Publish(id, entry, mid);
      } else {
        strays := if entry.run == NoRun then strays - {id} else strays[id := entry];
        Persist(entry.task, mid);
      }
    }

    /** A run's first step. */
    method DriveBegin(id: string, now: string, mid: string)
      requires Enabled(State(), Step.Begin(id, now, mid))
      modifies tasks, store, this`strays
      ensures State() == After(old(State()), Step.Begin(id, now, mid))
      ensures Backed(old(State())) ==> BeginTold(old(State()), State(), id, now)
    {
      BeginIsTold(State(), id, now, mid);
      hide BeginTold; hide Backed;
      hide Published;
      var e := Held(id);
      Set(id, e.(task := e.task.(state := Working, timestamp := Some(now)), run := Running), mid);
    }

    /** A run's last step: the orchestrator returned. */
    method DriveEnd(id: string, outcome: Outcome, now: string, mid: string)
      requires Enabled(State(), Step.End(id, outcome, now, mid))
      modifies tasks, store, this`strays
      ensures State() == After(old(State()), Step.End(id, outcome, now, mid))
      ensures Backed(old(State())) ==> EndTold(old(State()), State(), id, outcome, now)
    {
      EndIsTold(State(), id, outcome, now, mid);
      hide EndTold; hide Backed;
      hide Published;
      var e := Held(id);
      var task := e.task;
      match outcome {
        case Finished(success, summary, transcript) =>
          task := task.(state := if success then Completed else Failed);
          task := task.(statusText := Some(summary));
          task := task.(artifacts := if transcript == [] then [] else [Artifact("result", transcript)]);
        case Broke(message) =>
          task := task.(state := Failed, statusText := Some(message));
      }
      Set(id, e.(task := task.(timestamp := Some(now)), run := NoRun), mid);
    }

    method CancelTask(id: string, now: string, mid: string) returns (reply: Reply<WireTask>)
      modifies tasks, store
      ensures State() == After(old(State()), Step.Cancel(id, now, mid))
      ensures var refusal := CancelRefusal(old(tasks.entries), id);
              if refusal.Some? then reply == Error(refusal.value)
              else id in old(tasks.entries) && reply == Result(Cancelled(old(tasks.entries)[id].task, now))
      ensures reply.Result? ==>
                && id in old(tasks.entries) && CancelledAs(old(tasks.entries)[id].task, reply.value, now)
                && (Backed(old(State())) ==> Told(State(), id, reply.value, true))
    {
      CancelIsTold(State(), id, now, mid);
      hide Told; hide Backed;
      if id !in tasks.entries {
        return Error(TaskNotFound);
      }
      var e := tasks.entries[id];
      if e.task.state.Settled() {
        return Error(TaskNotCancelable);
      }
      var cancelled := e.task.(state := Canceled, statusText := Some(CANCELLED_TEXT), timestamp := Some(now));
      // Aborting drops the run; without a handle there is nothing to abort.
      Publish(id, e.(task := cancelled, run := if e.handle then NoRun else e.run), mid);
      return Result(cancelled);
    }

    /** One page of the matching tasks, newest first, and where the next page starts. */
    method ListTasks(context: Option<string>, status: Option<string>, size: Option<nat>, offset: nat)
      returns (page: seq<WireTask>, next: Option<nat>, total: nat)
      requires tasks.Valid()
      ensures var matching := Matching(tasks.order, tasks.entries, context, StatusFilter(status));
              && total == |matching|
              && page == PageOf(matching, PageSize(size), offset)
              && next == NextPage(matching, PageSize(size), offset)
    {
      var matching, i := [], 0;
      var wanted := StatusFilter(status);
      assert tasks.order[..0] == [];
      while i < |tasks.order|
        invariant i <= |tasks.order|
        invariant matching == Matching(tasks.order[..i], tasks.entries, context, wanted)
      {
        var id := tasks.order[i];
        assert tasks.order[..i + 1][..i] == tasks.order[..i];
        if id in tasks.entries && Matches(tasks.entries[id].task, context, wanted) {
          matching := [tasks.entries[id].task] + matching;
        }
        i := i + 1;
      }
      assert tasks.order[..i] == tasks.order;
      total := |matching|;
      page := PageOf(matching, PageSize(size), offset);
      next := NextPage(matching, PageSize(size), offset);
    }
  }

  // -------------------------------------------------------------------- listing

  function StatusFilter(status: Option<string>): Option<TaskState> {
    if status.Some? && ParseState(status.value) != Unknown then Some(ParseState(status.value)) else None
  }

  /** A listing asked for by state shows the tasks in that state, whichever dialect names it; a name that is
      no state's, or the unknown one, does not filter. */
  lemma FilterIsByState(state: TaskState, dialect: Dialect, task: WireTask, context: Option<string>)
    requires context.Some? && context.value != [] ==> task.contextId == context.value
    ensures Matches(task, context, StatusFilter(Some(RenderState(state, dialect)))) <==>
              state == Unknown || task.state == state
    ensures Matches(task, context, StatusFilter(None))
  {
    StateRoundTrip(state, dialect);
    hide RenderState; hide ParseState;
  }

  predicate Matches(task: WireTask, context: Option<string>, status: Option<TaskState>) {
    && (context.Some? && context.value != [] ==> task.contextId == context.value)
    && (status.Some? ==> task.state == status.value)
  }

  /** The matching tasks, newest first. */
  function Matching(order: seq<string>, entries: Entries, context: Option<string>,
                    status: Option<TaskState>): seq<WireTask> {
    if order == [] then []
    else
      var last := order[|order| - 1];
      (if last in entries && Matches(entries[last].task, context, status) then [entries[last].task] else [])
        + Matching(order[..|order| - 1], entries, context, status)
  }

  predicate IsListed(entries: Entries, id: string, context: Option<string>, status: Option<TaskState>) {
    && id in entries
    && (match context case Some(c) => c == [] || entries[id].task.contextId == c case None => true)
    && (match status case Some(s) => entries[id].task.state == s case None => true)
  }

  /** `places` are where the tasks of the listing stand in the order: the later before the earlier, and
      all those, and only those, that are in the context and the state asked for, if any. */
  ghost predicate ListsNewestFirst(order: seq<string>, entries: Entries, context: Option<string>,
                                   status: Option<TaskState>, listing: seq<WireTask>, places: seq<nat>)
  {
    && |places| == |listing|
    && (forall k :: 0 <= k < |places| ==> ShowsPlace(order, entries, listing[k], places[k]))
    && (forall k, l :: 0 <= k < l < |places| ==> places[k] > places[l])
    && (forall i :: 0 <= i < |order| ==> (i in places <==> IsListed(entries, order[i], context, status)))
  }

  predicate ShowsPlace(order: seq<string>, entries: Entries, task: WireTask, place: nat) {
    place < |order| && order[place] in entries && task == entries[order[place]].task
  }

  lemma MatchesIsListed(entries: Entries, id: string, context: Option<string>, status: Option<TaskState>)
    ensures IsListed(entries, id, context, status)
       <==> id in entries && Matches(entries[id].task, context, status)
  {
  }

  lemma PlacesStay(order: seq<string>, entries: Entries, context: Option<string>, status: Option<TaskState>,
                   listing: seq<WireTask>, places: seq<nat>, id: string)
    requires ListsNewestFirst(order, entries, context, status, listing, places)
    requires !IsListed(entries, id, context, status)
    ensures ListsNewestFirst(order + [id], entries, context, status, listing, places)
  {
    hide IsListed;
    var more := order + [id];
    assert forall i :: 0 <= i < |order| ==> more[i] == order[i];
    assert forall k :: 0 <= k < |places| ==> ShowsPlace(order, entries, listing[k], places[k]);
  }

  lemma PlacesGrow(order: seq<string>, entries: Entries, context: Option<string>, status: Option<TaskState>,
                   listing: seq<WireTask>, places: seq<nat>, id: string)
    requires ListsNewestFirst(order, entries, context, status, listing, places)
    requires IsListed(entries, id, context, status) && id in entries
    ensures ListsNewestFirst(order + [id], entries, context, status, [entries[id].task] + listing, [|order|] + places)
  {
    hide IsListed;
    var more, shown, at := order + [id], [entries[id].task] + listing, [|order|] + places;
    forall k | 0 <= k < |at|
      ensures ShowsPlace(more, entries, shown[k], at[k])
    {
      if k > 0 {
        assert ShowsPlace(order, entries, listing[k - 1], places[k - 1]);
      }
    }
    forall k, l | 0 <= k < l < |at|
      ensures at[k] > at[l]
    {
      assert ShowsPlace(order, entries, listing[l - 1], places[l - 1]);
    }
    forall i | 0 <= i < |more|
      ensures i in at <==> IsListed(entries, more[i], context, status)
    {
      if i < |order| {
        assert more[i] == order[i];
      }
    }
  }

  lemma {:induction false} ListingIsNewestFirst(order: seq<string>, entries: Entries, context: Option<string>,
                                                status: Option<TaskState>) returns (places: seq<nat>)
    ensures ListsNewestFirst(order, entries, context, status, Matching(order, entries, context, status), places)
  {
    if order == [] {
      places := [];
    } else {
      var last := |order| - 1;
      places := ListingIsNewestFirst(order[..last], entries, context, status);
      var listing := Matching(order[..last], entries, context, status);
      assert order == order[..last] + [order[last]] && [] + listing == listing;
      MatchesIsListed(entries, order[last], context, status);
      hide ListsNewestFirst; hide Matches; hide IsListed;
      if IsListed(entries, order[last], context, status) {
        PlacesGrow(order[..last], entries, context, status, listing, places, order[last]);
        places := [last] + places;
      } else {
        PlacesStay(order[..last], entries, context, status, listing, places, order[last]);
      }
    }
  }

  /** A page is as long as asked, within one and a hundred; fifty if nothing is asked. */
  lemma PageSizeIsAsAsked(asked: nat)
    ensures 1 <= asked <= 100 ==> PageSize(Some(asked)) == asked
    ensures asked < 1 ==> PageSize(Some(asked)) == 1
    ensures asked > 100 ==> PageSize(Some(asked)) == 100
    ensures PageSize(None) == 50
  {
  }

  function PageSize(asked: Option<nat>): (size: nat)
    ensures 1 <= size <= MAX_PAGE_SIZE
  {
    if asked.None? then 50
    else if asked.value < 1 then 1
    else if asked.value > MAX_PAGE_SIZE then MAX_PAGE_SIZE
    else asked.value
  }

  function PageOf(matching: seq<WireTask>, size: nat, offset: nat): seq<WireTask> {
    if offset >= |matching| then []
    else if offset + size >= |matching| then matching[offset..]
    else matching[offset..offset + size]
  }

  /** The token of the next page; none when this one reaches the end. */
  function NextPage(matching: seq<WireTask>, size: nat, offset: nat): Option<nat> {
    var next := offset + |PageOf(matching, size, offset)|;
    if next < |matching| then Some(next) else None
  }

  /** What a caller sees that follows the tokens to the end. */
  function AllPages(matching: seq<WireTask>, size: nat, offset: nat): seq<WireTask>
    requires size >= 1
    decreases |matching| - offset
  {
    var next := NextPage(matching, size, offset);
    PageOf(matching, size, offset) + if next.None? then [] else AllPages(matching, size, next.value)
  }

  /** Following the tokens shows every matching task of one listing exactly once, newest first,
      whatever the page size. */
  lemma {:induction false} PagesCoverTheListing(matching: seq<WireTask>, size: nat, offset: nat)
    requires size >= 1 && offset <= |matching|
    ensures AllPages(matching, size, offset) == matching[offset..]
    decreases |matching| - offset
  {
    var next := NextPage(matching, size, offset);
    if next.Some? {
      PagesCoverTheListing(matching, size, next.value);
      assert matching[offset..] == matching[offset..next.value] + matching[next.value..];
    }
  }

  /** A token that the listing does not reach any more shows nothing. */
  lemma PagesFrom(matching: seq<WireTask>, size: nat, offset: nat)
    requires size >= 1
    ensures AllPages(matching, size, offset) == if offset <= |matching| then matching[offset..] else []
  {
    if offset <= |matching| {
      PagesCoverTheListing(matching, size, offset);
    }
  }

  predicate AllIn(some: seq<WireTask>, pages: seq<WireTask>) {
    forall t :: t in some ==> t in pages
  }

  predicate NoneIn(some: seq<WireTask>, pages: seq<WireTask>) {
    forall t :: t in some ==> t !in pages
  }

  /** A caller that was shown `shown` tasks goes on where the listing has become `newer` tasks, those
      `kept` of the ones shown, and the `rest` not shown yet. It then sees exactly the rest, misses
      nothing of it, or is shown nothing twice, exactly when as many tasks, at least as many, or at
      most as many now stand before the rest as were shown; short of there being no rest to miss,
      and no task to repeat. */
  lemma PagesGoOnIff(newer: seq<WireTask>, kept: seq<WireTask>, rest: seq<WireTask>, size: nat, shown: nat)
    requires size >= 1 && NoRepeats(newer + kept + rest)
    ensures var pages, before := AllPages(newer + kept + rest, size, shown), |newer| + |kept|;
            && (pages == rest <==> before == shown || (before <= shown && rest == []))
            && (AllIn(rest, pages) <==> before >= shown || rest == [])
            && (NoneIn(kept, pages) <==> before <= shown || kept == [])
  {
    var later, before := newer + kept + rest, |newer| + |kept|;
    var pages := AllPages(later, size, shown);
    PagesFrom(later, size, shown);
    if shown <= before {
      assert pages == (newer + kept)[shown..] + rest;
      PagesAhead(newer, kept, rest, shown, pages);
    } else {
      assert shown <= |later| ==> pages == rest[shown - before..];
      PagesBehind(newer, kept, rest, pages);
    }
  }

  lemma PagesAhead(newer: seq<WireTask>, kept: seq<WireTask>, rest: seq<WireTask>, shown: nat, pages: seq<WireTask>)
    requires shown <= |newer| + |kept| && NoRepeats(newer + kept + rest)
    requires pages == (newer + kept)[shown..] + rest
    ensures (pages == rest <==> |newer| + |kept| == shown) && AllIn(rest, pages)
    ensures NoneIn(kept, pages) <==> |newer| + |kept| == shown || kept == []
  {
    var before := newer + kept;
    if shown == |before| {
      assert pages == rest;
      var later := before + rest;
      forall t | t in kept
        ensures t !in rest
      {
        var i :| 0 <= i < |kept| && kept[i] == t;
        assert later[|newer| + i] == t;
        assert forall j :: 0 <= j < |rest| ==> later[|before| + j] == rest[j];
      }
    } else if kept != [] {
      var t := kept[|kept| - 1];
      assert before[|before| - 1] == t && pages[|before| - 1 - shown] == t;
      assert t in kept && t in pages;
    }
  }

  lemma PagesBehind(newer: seq<WireTask>, kept: seq<WireTask>, rest: seq<WireTask>, pages: seq<WireTask>)
    requires NoRepeats(newer + kept + rest) && (pages == [] || exists k :: 0 < k <= |rest| && pages == rest[k..])
    ensures (pages == rest <==> rest == []) && (AllIn(rest, pages) <==> rest == []) && NoneIn(kept, pages)
  {
    var later, before := newer + kept + rest, |newer| + |kept|;
    assert forall j :: 0 <= j < |rest| ==> later[before + j] == rest[j];
    assert forall t :: t in pages ==> t in rest;
    forall t | t in kept
      ensures t !in rest
    {
      var i :| 0 <= i < |kept| && kept[i] == t;
      assert later[|newer| + i] == t;
    }
    if rest != [] {
      assert rest[0] in rest && rest[0] !in pages;
    }
  }

  /** Tasks that start between two pages push the listing down: the caller is shown the last ones
      again, as many as started, and misses none. */
  lemma LaterTasksRepeat(newer: seq<WireTask>, listing: seq<WireTask>, size: nat, offset: nat)
    requires size >= 1 && |newer| <= offset <= |listing|
    ensures AllPages(newer + listing, size, offset) == listing[offset - |newer|..offset] + listing[offset..]
  {
    PagesCoverTheListing(newer + listing, size, offset);
  }

}
