/** What the server's steps do to a task's stream: who overwrites a settled state, and when. */
module ServedStreams {
  import opened Tasks
  import opened Wire
  import opened TaskMaps
  import opened Service
  import opened Serving
  import Streams = TaskStreams

  /** What a step makes of the task: published by its run, or cancelled. */
  function ChangeBy(s: Service, step: Step, id: string): Option<WireTask>
    requires Enabled(s, step)
  {
    match step
    case Begin(other, now, _) => if other == id then Some(WentToWork(Moving(s)[id], now).task) else None
    case End(other, outcome, now, _) => if other == id then Some(WentHome(Moving(s)[id], outcome, now).task) else None
    case Cancel(other, now, _) =>
      if other == id && CancelRefusal(s.entries, id).None? then Some(Cancelled(s.entries[id].task, now)) else None
    case _ => None
  }

  /** How a task's snapshot changes while its process lives. */
  ghost function ChangesOf(s: Service, steps: seq<Step>, id: string): seq<WireTask>
    requires IsRun(s, steps)
    decreases |steps|
  {
    if steps == [] || steps[0].Restart? then []
    else
      var change := ChangeBy(s, steps[0], id);
      (if change.Some? then [change.value] else []) + ChangesOf(After(s, steps[0]), steps[1..], id)
  }

  /** The same, seen on the task's feed. */
  function ChangesIn(ws: seq<Streams.Write>): seq<WireTask> {
    if ws == [] then []
    else (if ws[0].Change? then [ws[0].task] else []) + ChangesIn(ws[1..])
  }

  predicate OnlyLastSettled(tasks: seq<WireTask>) {
    forall i :: 0 <= i < |tasks| - 1 ==> !tasks[i].state.Settled()
  }

  predicate SettledAre(tasks: seq<WireTask>, last: WireTask) {
    forall i :: 0 <= i < |tasks| ==> Streams.TellsOnly(tasks[i], last)
  }

  /** What the history of a feed promises, read off the changes of its snapshot. */
  ghost predicate Follows(feed: Streams.Feed, ws: seq<Streams.Write>, last: WireTask, tasks: seq<WireTask>)
    requires Streams.CanWriteAll(feed, ws)
  {
    && tasks != [] && tasks[0] == feed.task && tasks[|tasks| - 1] == Streams.WrittenAll(feed, ws).task
    && (Streams.LeavesSettledAlone(feed, ws) <==> OnlyLastSettled(tasks))
    && (Streams.SettlesOnlyAs(feed, ws, last) <==> SettledAre(tasks, last))
  }

  lemma NothingFollows(feed: Streams.Feed, last: WireTask)
    ensures Follows(feed, [], last, [feed.task])
  {
  }

  lemma ChangeFollows(feed: Streams.Feed, ws: seq<Streams.Write>, last: WireTask, later: seq<WireTask>)
    requires Streams.CanWriteAll(feed, ws) && ws != []
    requires Follows(Streams.Written(feed, ws[0]), ws[1..], last, later)
    ensures if ws[0].Change? then Follows(feed, ws, last, [feed.task] + later) else Follows(feed, ws, last, later)
  {
    hide Streams.CanWrite;
    PrependedSettles(feed.task, later, last);
    hide OnlyLastSettled;
    assert SettledAre(later, last) ==> Streams.TellsOnly(later[0], last);
    hide SettledAre;
  }

  /** However announcements and output fall in between. */
  lemma {:induction false} FeedFollowsChanges(feed: Streams.Feed, ws: seq<Streams.Write>, last: WireTask)
    requires Streams.CanWriteAll(feed, ws)
    ensures Follows(feed, ws, last, [feed.task] + ChangesIn(ws))
    decreases |ws|
  {
    hide Follows; hide Streams.CanWrite;
    if ws == [] {
      NothingFollows(feed, last);
      assert [feed.task] + ChangesIn(ws) == [feed.task];
    } else {
      var next, more := Streams.Written(feed, ws[0]), ChangesIn(ws[1..]);
      FeedFollowsChanges(next, ws[1..], last);
      ChangeFollows(feed, ws, last, [next.task] + more);
      ChangesUnfold(feed.task, ws);
    }
  }

  lemma ChangesUnfold(task: WireTask, ws: seq<Streams.Write>)
    requires ws != []
    ensures var more := ChangesIn(ws[1..]);
            [task] + ChangesIn(ws) == if ws[0].Change? then [task] + ([ws[0].task] + more) else [task] + more
  {
    assert [] + ChangesIn(ws[1..]) == ChangesIn(ws[1..]);
  }

  lemma FollowsMeans(feed: Streams.Feed, ws: seq<Streams.Write>, last: WireTask, tasks: seq<WireTask>)
    requires Streams.CanWriteAll(feed, ws) && Follows(feed, ws, last, tasks)
    ensures tasks != [] && tasks[|tasks| - 1] == Streams.WrittenAll(feed, ws).task
    ensures Streams.LeavesSettledAlone(feed, ws) <==> OnlyLastSettled(tasks)
    ensures Streams.SettlesOnlyAs(feed, ws, last) <==> SettledAre(tasks, last)
  {
    hide Streams.CanWrite;
  }

  lemma PrependedSettles(task: WireTask, later: seq<WireTask>, last: WireTask)
    requires later != []
    ensures OnlyLastSettled([task] + later) <==> !task.state.Settled() && OnlyLastSettled(later)
    ensures SettledAre([task] + later, last) <==> Streams.TellsOnly(task, last) && SettledAre(later, last)
  {
    var tasks := [task] + later;
    assert forall i :: 0 <= i < |later| ==> tasks[i + 1] == later[i];
    assert tasks[0] == task;
  }

  // ------------------------------------------------------------- tasks not cancelled early

  /** No cancel of this task comes before its run can be aborted. */
  ghost predicate NeverEarly(s: Service, steps: seq<Step>, id: string)
    requires IsRun(s, steps)
    decreases |steps|
  {
    steps != [] ==>
      !(EarlyCancel(s, steps[0]) && steps[0].id == id) && NeverEarly(After(s, steps[0]), steps[1..], id)
  }

  /** A task at rest is changed no more. */
  lemma {:induction false} RestHasNoChanges(s: Service, steps: seq<Step>, id: string, task: WireTask)
    requires Backed(s) && IsRun(s, steps) && NeverStarts(steps, id) && Rests(s, id, task)
    ensures ChangesOf(s, steps, id) == []
    decreases |steps|
  {
    if steps != [] {
      RestIsUnmoved(s, steps[0], id, task);
      hide Backed; hide Rests; hide After; hide Enabled; hide ChangeBy;
      StepKeepsBacked(s, steps[0]);
      StepLeavesRest(s, steps[0], id, task);
      RestHasNoChanges(After(s, steps[0]), steps[1..], id, task);
    }
  }

  lemma RestIsUnmoved(s: Service, step: Step, id: string, task: WireTask)
    requires Rests(s, id, task) && Enabled(s, step)
    ensures ChangeBy(s, step, id) == None
  {
    hide Stored; hide Normalise; hide WentToWork; hide WentHome; hide Cancelled;
  }

  /** An unsettled task's record is still there after the next step, and says what the step made of it. */
  lemma ChangeIsKept(s: Service, step: Step, id: string)
    requires id in s.entries && !s.entries[id].task.state.Settled() && Enabled(s, step) && !step.Restart?
    ensures id in After(s, step).entries
    ensures var change := ChangeBy(s, step, id);
            After(s, step).entries[id].task == if change.Some? then change.value else s.entries[id].task
    ensures After(s, step).entries[id].task.state.Settled() && !(EarlyCancel(s, step) && step.id == id) ==>
              After(s, step).entries[id].run == NoRun
  {
    OnlySettledGo(s);
    RoomShrinks(s);
    hide Roomy; hide Persisted; hide Goal; hide FollowsUp; hide Unsettled;
    assert Moving(s)[id] == s.entries[id];
  }

  /** However the server goes on: until its process ends, a task that is not cancelled early is
      settled by its last change, if by any. */
  lemma {:induction false} SettledByTheLastChange(s: Service, steps: seq<Step>, id: string)
    requires Backed(s) && IsRun(s, steps) && NeverStarts(steps, id) && NeverEarly(s, steps, id)
    requires id in s.entries && (s.entries[id].task.state.Settled() ==> s.entries[id].run == NoRun)
    ensures OnlyLastSettled([s.entries[id].task] + ChangesOf(s, steps, id))
    decreases |steps|
  {
    hide *;
    var task := s.entries[id].task;
    if task.state.Settled() {
      RecordRested(s, id);
      RestHasNoChanges(s, steps, id, task);
      OneIsOnly(task);
    } else if steps == [] || steps[0].Restart? {
      NoMoreChanges(s, steps, id);
      OneIsOnly(task);
    } else {
      RunUnfolds(s, steps, id);
      var after := After(s, steps[0]);
      ChangeIsKept(s, steps[0], id);
      StepKeepsBacked(s, steps[0]);
      SettledByTheLastChange(after, steps[1..], id);
      var later := [after.entries[id].task] + ChangesOf(after, steps[1..], id);
      PrependedSettles(task, later, task);
      OneMoreChange(s, steps, id, task, later);
    }
  }

  lemma OneIsOnly(task: WireTask)
    ensures OnlyLastSettled([task] + [])
  {
  }

  lemma NoMoreChanges(s: Service, steps: seq<Step>, id: string)
    requires IsRun(s, steps) && (steps == [] || steps[0].Restart?)
    ensures ChangesOf(s, steps, id) == []
  {
  }

  lemma RunUnfolds(s: Service, steps: seq<Step>, id: string)
    requires IsRun(s, steps) && steps != [] && NeverStarts(steps, id) && NeverEarly(s, steps, id)
    ensures Enabled(s, steps[0]) && IsRun(After(s, steps[0]), steps[1..]) && NeverStarts(steps[1..], id)
    ensures NeverEarly(After(s, steps[0]), steps[1..], id)
    ensures !EarlyCancel(s, steps[0]) || steps[0].id != id
  {
    hide After; hide Enabled; hide EarlyCancel;
  }

  lemma OneMoreChange(s: Service, steps: seq<Step>, id: string, task: WireTask, later: seq<WireTask>)
    requires IsRun(s, steps) && steps != [] && !steps[0].Restart? && Enabled(s, steps[0])
    requires IsRun(After(s, steps[0]), steps[1..])
    requires var change := ChangeBy(s, steps[0], id);
             later == [if change.Some? then change.value else task] + ChangesOf(After(s, steps[0]), steps[1..], id)
    ensures [task] + ChangesOf(s, steps, id) == if ChangeBy(s, steps[0], id).Some? then [task] + later else later
  {
    hide After; hide Enabled; hide ChangeBy;
  }

  lemma RecordRested(s: Service, id: string)
    requires Backed(s) && id in s.entries && s.entries[id].task.state.Settled() && s.entries[id].run == NoRun
    ensures Rests(s, id, s.entries[id].task)
  {
    BackedParts(s);
    RecordsAreNoStrays(s, id);
    hide Backed; hide Shaped; hide Manned; hide Durable; hide Recorded;
    RecordRests(s, id);
  }

  /** So its subscribers learn the end: whatever the feed's history, as long as its snapshot changes
      as the server's steps have it. */
  lemma ServedStreamsSettleOnce(s: Service, steps: seq<Step>, id: string, feed: Streams.Feed, ws: seq<Streams.Write>)
    requires Backed(s) && IsRun(s, steps) && NeverStarts(steps, id) && NeverEarly(s, steps, id)
    requires id in s.entries && (s.entries[id].task.state.Settled() ==> s.entries[id].run == NoRun)
    requires feed.task == s.entries[id].task && Streams.CanWriteAll(feed, ws)
    requires ChangesIn(ws) == ChangesOf(s, steps, id)
    ensures Streams.LeavesSettledAlone(feed, ws)
    ensures Streams.SettlesOnlyAs(feed, ws, Streams.WrittenAll(feed, ws).task)
  {
    hide *;
    SettledByTheLastChange(s, steps, id);
    FeedFollowsChanges(feed, ws, feed.task);
    FollowsMeans(feed, ws, feed.task, [feed.task] + ChangesIn(ws));
    Streams.SettledAloneSettlesOnce(feed, ws);
  }

  // ----------------------------------------------------------- a task cancelled early

  /** After a cancel, nothing whatever changes the task again exactly when its handle was stored. */
  lemma CancelIsTheLastChangeIff(s: Service, id: string, now: string, mid: string)
    requires Backed(s) && id in s.entries && !s.entries[id].task.state.Settled()
    ensures Enabled(s, Cancel(id, now, mid))
    ensures var c := After(s, Cancel(id, now, mid));
            (forall steps :: IsRun(c, steps) && NeverStarts(steps, id) ==> ChangesOf(c, steps, id) == [])
              <==> s.entries[id].handle
  {
    hide *;
    BackedParts(s);
    CancelFacts(s, id, now, mid);
    var c := After(s, Cancel(id, now, mid));
    StepKeepsBacked(s, Cancel(id, now, mid));
    if s.entries[id].handle {
      CanceledIsSettled(c.entries[id].task);
      RecordRested(c, id);
      forall steps | IsRun(c, steps) && NeverStarts(steps, id)
        ensures ChangesOf(c, steps, id) == []
      {
        RestHasNoChanges(c, steps, id, c.entries[id].task);
      }
    } else {
      var steps := RunChangesIt(c, id);
      assert ChangesOf(c, steps, id) != [];
    }
  }

  lemma CanceledIsSettled(task: WireTask)
    requires task.state == Canceled
    ensures task.state.Settled()
  {
  }

  lemma RunChangesIt(c: Service, id: string) returns (steps: seq<Step>)
    requires id in c.entries && c.entries[id].run != NoRun
    ensures IsRun(c, steps) && NeverStarts(steps, id) && ChangesOf(c, steps, id) != []
  {
    assert Moving(c)[id] == c.entries[id];
    steps := [if c.entries[id].run == Begun then Begin(id, "", "") else End(id, Broke(""), "", "")];
    assert steps[1..] == [];
  }

  lemma ChangesCons(s: Service, step: Step, rest: seq<Step>, id: string)
    requires Enabled(s, step) && !step.Restart? && IsRun(After(s, step), rest)
    requires NeverStarts(rest, id) && !step.Start?
    ensures var steps := [step] + rest;
            && IsRun(s, steps) && NeverStarts(steps, id)
            && ChangesOf(s, steps, id)
               == (if ChangeBy(s, step, id).Some? then [ChangeBy(s, step, id).value] else [])
                  + ChangesOf(After(s, step), rest, id)
  {
    hide After; hide Enabled; hide ChangeBy;
    assert ([step] + rest)[1..] == rest;
  }

  lemma NoStepsNoChanges(s: Service, id: string)
    ensures IsRun(s, []) && NeverStarts([], id) && ChangesOf(s, [], id) == []
  {
  }

  const ENDED := Finished(true, "", "")

  /** A running task completes. */
  lemma RunningEnds(s: Service, id: string) returns (final: WireTask)
    requires id in s.entries && s.entries[id].run == Running
    ensures var steps := [End(id, ENDED, "", "")];
            IsRun(s, steps) && NeverStarts(steps, id) && ChangesOf(s, steps, id) == [final]
    ensures final.state == Completed
  {
    var end := End(id, ENDED, "", "");
    assert Moving(s)[id] == s.entries[id];
    final := WentHome(s.entries[id], ENDED, "").task;
    assert Enabled(s, end) && ChangeBy(s, end, id) == Some(final);
    hide After; hide Enabled; hide ChangeBy;
    NoStepsNoChanges(After(s, end), id);
    ChangesCons(s, end, [], id);
    assert [end] + [] == [end];
  }

  lemma BegunWorks(s: Service, id: string)
    requires id in s.entries && s.entries[id].run == Begun
    ensures var step := Begin(id, "", "");
            && Enabled(s, step) && ChangeBy(s, step, id).Some?
            && id in After(s, step).entries && After(s, step).entries[id].run == Running
  {
    hide Persisted;
    assert Moving(s)[id] == s.entries[id];
  }

  lemma RunEnds(s: Service, id: string) returns (steps: seq<Step>, final: WireTask)
    requires id in s.entries && s.entries[id].run != NoRun
    ensures IsRun(s, steps) && NeverStarts(steps, id) && final.state == Completed
    ensures var changes := ChangesOf(s, steps, id); changes != [] && changes[|changes| - 1] == final
  {
    hide *;
    if s.entries[id].run == Running {
      steps := [End(id, ENDED, "", "")];
      final := RunningEnds(s, id);
    } else {
      var begin := Begin(id, "", "");
      BegunWorks(s, id);
      final := RunningEnds(After(s, begin), id);
      ChangesCons(s, begin, [End(id, ENDED, "", "")], id);
      steps := [begin] + [End(id, ENDED, "", "")];
    }
  }

  lemma CancelChanges(s: Service, id: string)
    requires id in s.entries && !s.entries[id].task.state.Settled()
    ensures Enabled(s, Cancel(id, "", ""))
    ensures ChangeBy(s, Cancel(id, "", ""), id) == Some(Cancelled(s.entries[id].task, ""))
    ensures Cancelled(s.entries[id].task, "").state == Canceled
  {
  }

  /** Cancelled before it can be stopped, a run still completes: then nobody who watches the task is
      sure to learn the end, as its snapshot was settled as cancelled on the way. */
  lemma EarlyCancelMisleads(s: Service, id: string) returns (steps: seq<Step>)
    requires Backed(s) && id in s.entries && !s.entries[id].task.state.Settled() && !s.entries[id].handle
    ensures IsRun(s, steps) && NeverStarts(steps, id)
    ensures forall feed: Streams.Feed, ws: seq<Streams.Write> ::
              feed.task == s.entries[id].task && Streams.CanWriteAll(feed, ws)
              && ChangesIn(ws) == ChangesOf(s, steps, id)
              ==> var last := Streams.WrittenAll(feed, ws).task;
                  last.state == Completed && !Streams.SettlesOnlyAs(feed, ws, last)
  {
    hide *;
    var cancel := Cancel(id, "", "");
    BackedParts(s);
    CancelFacts(s, id, "", "");
    CancelChanges(s, id);
    var rest, final := RunEnds(After(s, cancel), id);
    ChangesCons(s, cancel, rest, id);
    steps := [cancel] + rest;
    var cancelled := Cancelled(s.entries[id].task, "");
    var changes := ChangesOf(s, steps, id);
    assert changes[0] == cancelled && changes[|changes| - 1] == final;
    forall feed: Streams.Feed, ws: seq<Streams.Write> |
      feed.task == s.entries[id].task && Streams.CanWriteAll(feed, ws) && ChangesIn(ws) == changes
      ensures Streams.WrittenAll(feed, ws).task.state == Completed
      ensures !Streams.SettlesOnlyAs(feed, ws, Streams.WrittenAll(feed, ws).task)
    {
      FeedFollowsChanges(feed, ws, final);
      FollowsMeans(feed, ws, final, [feed.task] + changes);
      TwoEndings(feed.task, changes, cancelled, final);
    }
  }

  lemma TwoEndings(task: WireTask, changes: seq<WireTask>, cancelled: WireTask, final: WireTask)
    requires changes != [] && changes[0] == cancelled && changes[|changes| - 1] == final
    requires cancelled.state == Canceled && final.state == Completed
    ensures var tasks := [task] + changes; tasks[|tasks| - 1] == final && !SettledAre(tasks, final)
  {
    var tasks := [task] + changes;
    assert tasks[1] == cancelled;
  }

  /** And such a task is there for the having: the server that was just sent a goal. */
  lemma MisledFromEmpty(params: Json, id: string)
    requires Usable(params)
    ensures exists s :: Reachable(s) && Backed(s) && id in s.entries && !s.entries[id].task.state.Settled()
                        && !s.entries[id].handle
  {
    hide *;
    CancelCanComeEarly(params, id);
    var s :| Reachable(s) && id in s.entries && !s.entries[id].task.state.Settled() && !s.entries[id].handle;
    ReachableIsBacked(s);
  }

  lemma ReachableIsBacked(s: Service)
    requires Reachable(s)
    ensures Backed(s)
  {
    var steps :| IsRun(EMPTY, steps) && Final(EMPTY, steps) == s;
    hide IsRun; hide Final;
    EmptyIsKept();
    KeptIsBacked(EMPTY);
    hide Backed; hide Kept;
    RunKeepsBacked(EMPTY, steps);
  }
}
