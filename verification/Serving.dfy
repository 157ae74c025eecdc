/** Whole runs of the A2A server: any interleaving of its handlers, its tasks' own steps, and crashes. */
module Serving {
  import opened Dag
  import opened Tasks
  import opened Wire
  import opened TaskMaps
  import opened TaskRows
  import opened Service

  lemma HandlingKeeps(s: Service, id: string)
    requires Backed(s) && id in s.entries
    ensures Backed(s.(entries := s.entries[id := s.entries[id].(handle := true)]))
  {
    hide Ascending; hide Lists; hide Holds; hide Durable;
    SetCounts(s.entries, id, s.entries[id].(handle := true));
    assert s.entries.Keys + {id} == s.entries.Keys;
  }

  lemma StartKeeps(s: Service, step: Step)
    requires Backed(s) && Enabled(s, step) && step.Start?
    ensures Backed(After(s, step))
    ensures s.rows.Keys <= s.entries.Keys ==> After(s, step).rows.Keys <= After(s, step).entries.Keys
  {
    hide Backed; hide Admitted; hide Roomy; hide Unsettled; hide Goal; hide FollowsUp;
    if StartRefusal(s.entries, step.params).None? {
      RoomKeeps(s);
      assert |Roomy(s).entries| < MAX_RETAINED_TASKS by {
        BackedParts(s);
        RoomIsThere(s);
      }
      RoomShrinks(s);
      StaysFresh(s, step.id);
      if s.rows.Keys <= s.entries.Keys {
        RoomKeepsKeys(s);
      }
      AdmittingKeeps(Roomy(s), Submission(step.params, step.id, step.context, step.now), step.mid);
    }
  }

  lemma StaysFresh(s: Service, id: string)
    requires id !in s.entries && id !in s.rows && id !in s.strays
    ensures id !in Roomy(s).entries && id !in Roomy(s).rows && id !in Roomy(s).strays
  {
    hide Evicted; hide Dropping;
  }

  lemma MovingIs(s: Service, id: string)
    requires Backed(s) && id in Moving(s)
    ensures Moving(s)[id].task.id == id && Moving(s)[id] == (if id in s.entries then s.entries[id] else s.strays[id])
    ensures id in s.entries || id in s.strays
  {
    hide Holds; hide Lists; hide Durable; hide Recorded;
  }

  lemma PublishingKeeps(s: Service, id: string, entry: Entry, mid: string)
    requires Backed(s) && id in Moving(s) && entry.task.id == id
    requires !entry.task.state.Settled() ==> entry.run != NoRun
    ensures Backed(Published(s, id, entry, mid))
    ensures id in s.entries ==> Published(s, id, entry, mid).rows.Keys == s.rows.Keys
    ensures id in s.entries ==> Published(s, id, entry, mid).entries.Keys == s.entries.Keys + {id}
    ensures id !in s.entries ==> id in Published(s, id, entry, mid).rows
    ensures id !in s.entries ==> Published(s, id, entry, mid).entries == s.entries
  {
    hide Backed; hide Persisted;
    MovingIs(s, id);
    if id in s.entries {
      RewritingKeeps(s, id, entry, mid);
    } else {
      StrayingKeeps(s, id, entry, mid);
    }
  }

  /** A write by a run whose record is gone. */
  predicate StrayWrite(s: Service, step: Step) {
    (step.Begin? || step.End?) && step.id !in s.entries
  }

  lemma RunStepKeeps(s: Service, step: Step)
    requires Backed(s) && Enabled(s, step) && (step.Begin? || step.End?)
    ensures Backed(After(s, step))
    ensures s.rows.Keys <= s.entries.Keys ==>
              (After(s, step).rows.Keys <= After(s, step).entries.Keys <==> !StrayWrite(s, step))
  {
    hide Backed; hide Published; hide Moving; hide Concluded;
    MovingIs(s, step.id);
    var e := Moving(s)[step.id];
    match step
    case Begin(id, now, mid) => PublishingKeeps(s, id, WentToWork(e, now), mid);
    case End(id, outcome, now, mid) =>
      ConcludedFacts(e.task, outcome, now);
      PublishingKeeps(s, id, WentHome(e, outcome, now), mid);
  }

  lemma ConcludedFacts(task: WireTask, outcome: Outcome, now: string)
    ensures Concluded(task, outcome, now).id == task.id && Concluded(task, outcome, now).state.Settled()
  {
  }

  lemma CancelKeeps(s: Service, step: Step)
    requires Backed(s) && step.Cancel?
    ensures Backed(After(s, step))
    ensures s.rows.Keys <= s.entries.Keys ==> After(s, step).rows.Keys <= After(s, step).entries.Keys
  {
    hide Backed; hide Rewritten;
    if CancelRefusal(s.entries, step.id).None? {
      assert s.entries[step.id].task.id == step.id by {
        BackedParts(s);
        EntryId(s, step.id);
      }
      var e := s.entries[step.id];
      var entry := e.(task := Cancelled(e.task, step.now), run := if e.handle then NoRun else e.run);
      RewritingKeeps(s, step.id, entry, step.mid);
      RewritingKeys(s, step.id, entry, step.mid);
    }
  }

  lemma RewritingKeys(s: Service, id: string, entry: Entry, mid: string)
    ensures Rewritten(s, id, entry, mid).entries.Keys == s.entries.Keys + {id}
  {
    hide Persisted;
  }

  lemma RestartKeeps(s: Service, step: Step)
    requires Backed(s) && step.Restart?
    ensures Backed(After(s, step))
    ensures s.rows.Keys <= s.entries.Keys ==> After(s, step).rows.Keys <= After(s, step).entries.Keys
  {
    hide *;
    BackedParts(s);
    RestartTakesUp(s.rows, step.now, step.mid);
    AfterRestart(s, step);
    if s.rows.Keys <= s.entries.Keys {
      MirroredIffNoneExtra(s);
      KeptIs(s);
      RestartRevives(s, step.now, step.mid);
      KeptKeys(After(s, step));
    }
  }

  lemma AfterRestart(s: Service, step: Step)
    requires step.Restart?
    ensures Enabled(s, step) && After(s, step) == Restarted(s.rows, step.now, step.mid)
  {
    hide Restarted;
  }

  lemma HandlingStepKeeps(s: Service, step: Step)
    requires Backed(s) && step.KeepHandle?
    ensures Backed(After(s, step))
    ensures s.rows.Keys <= s.entries.Keys ==> After(s, step).rows.Keys <= After(s, step).entries.Keys
  {
    hide Backed;
    if step.id in s.entries {
      HandlingKeeps(s, step.id);
    }
  }

  /** Every step keeps what is backed: the order lists the records, at most 512, each held by its
      row, the rows in the records' order; and every row can be taken back. */
  lemma StepKeepsBacked(s: Service, step: Step)
    requires Backed(s) && Enabled(s, step)
    ensures Backed(After(s, step))
    ensures s.rows.Keys <= s.entries.Keys ==>
              (After(s, step).rows.Keys <= After(s, step).entries.Keys <==> !StrayWrite(s, step))
  {
    hide Backed; hide After;
    match step
    case Start(_, _, _, _, _) => StartKeeps(s, step);
    case KeepHandle(id) => HandlingStepKeeps(s, step);
    case Begin(_, _, _) => RunStepKeeps(s, step);
    case End(_, _, _, _) => RunStepKeeps(s, step);
    case Cancel(_, _, _) => CancelKeeps(s, step);
    case Restart(_, _) => RestartKeeps(s, step);
  }

  /** A step leaves the rows a mirror of the records exactly when it is not the write of a stray. */
  lemma StepKeepsIff(s: Service, step: Step)
    requires Kept(s) && Enabled(s, step)
    ensures Backed(After(s, step))
    ensures Kept(After(s, step)) <==> !StrayWrite(s, step)
    ensures Mirrored(After(s, step)) <==> !StrayWrite(s, step)
  {
    hide *;
    KeptIsBacked(s);
    KeptKeys(s);
    StepKeepsBacked(s, step);
    MirroredIffNoneExtra(After(s, step));
    if Mirrored(After(s, step)) {
      KeptIs(After(s, step));
    } else {
      NotMirroredNotKept(After(s, step));
    }
  }

  lemma NotMirroredNotKept(s: Service)
    requires !Mirrored(s)
    ensures !Kept(s)
  {
  }

  lemma StepKeeps(s: Service, step: Step)
    requires Kept(s) && Enabled(s, step) && !StrayWrite(s, step)
    ensures Kept(After(s, step))
  {
    hide *;
    StepKeepsIff(s, step);
  }

  lemma EntryId(s: Service, id: string)
    requires Shaped(s) && id in s.entries
    ensures s.entries[id].task.id == id
  {
  }

  lemma RoomShrinks(s: Service)
    ensures forall id :: id in Roomy(s).entries ==> id in s.entries && Roomy(s).entries[id] == s.entries[id]
  {
  }

  ghost predicate IsRun(s: Service, steps: seq<Step>)
    decreases |steps|
  {
    steps == [] || (Enabled(s, steps[0]) && IsRun(After(s, steps[0]), steps[1..]))
  }

  ghost function Final(s: Service, steps: seq<Step>): Service
    requires IsRun(s, steps)
    decreases |steps|
  {
    if steps == [] then s else Final(After(s, steps[0]), steps[1..])
  }

  /** Whatever happens, the order lists exactly the records, there are at most 512, each is held by
      its row, the rows of records are in their order, and every row can be taken back. */
  lemma {:induction false} RunKeepsBacked(s: Service, steps: seq<Step>)
    requires Backed(s) && IsRun(s, steps)
    ensures Backed(Final(s, steps))
    decreases |steps|
  {
    if steps != [] {
      StepKeepsBacked(s, steps[0]);
      RunKeepsBacked(After(s, steps[0]), steps[1..]);
    }
  }

  ghost predicate AlwaysMirrored(s: Service, steps: seq<Step>)
    requires IsRun(s, steps)
    decreases |steps|
  {
    Mirrored(s) && (steps != [] ==> AlwaysMirrored(After(s, steps[0]), steps[1..]))
  }

  ghost predicate NoStrayWrites(s: Service, steps: seq<Step>)
    requires IsRun(s, steps)
    decreases |steps|
  {
    steps != [] ==> !StrayWrite(s, steps[0]) && NoStrayWrites(After(s, steps[0]), steps[1..])
  }

  /** The rows mirror the records all along a run exactly when no run writes whose record is gone. */
  lemma {:induction false} RunKeepsIff(s: Service, steps: seq<Step>)
    requires Kept(s) && IsRun(s, steps)
    ensures AlwaysMirrored(s, steps) <==> NoStrayWrites(s, steps)
    ensures NoStrayWrites(s, steps) ==> Kept(Final(s, steps))
    decreases |steps|
  {
    hide Mirrored; hide After; hide StrayWrite; hide Enabled; hide Backed;
    if steps != [] {
      StepKeepsIff(s, steps[0]);
      if !StrayWrite(s, steps[0]) {
        RunKeepsIff(After(s, steps[0]), steps[1..]);
      } else {
        NotAlways(After(s, steps[0]), steps[1..]);
      }
    }
  }

  lemma NotAlways(s: Service, steps: seq<Step>)
    requires IsRun(s, steps) && !Mirrored(s)
    ensures !AlwaysMirrored(s, steps)
  {
  }

  /** The next step cannot break the mirror exactly when no forgotten record's run is alive. */
  lemma SafeIffNoStrays(s: Service)
    requires Kept(s)
    ensures (forall step :: Enabled(s, step) ==> Mirrored(After(s, step))) <==> s.strays == map[]
  {
    forall step | Enabled(s, step)
      ensures Mirrored(After(s, step)) <==> !StrayWrite(s, step)
    {
      StepKeepsIff(s, step);
    }
    hide *;
    KeptIsBacked(s);
    if s.strays == map[] {
      forall step | Enabled(s, step)
        ensures !StrayWrite(s, step)
      {
        NoStraysNoWrites(s, step);
      }
    } else {
      BackedParts(s);
      var step := StrayWrites(s);
      assert !Mirrored(After(s, step));
    }
  }

  lemma NoStraysNoWrites(s: Service, step: Step)
    requires s.strays == map[] && Enabled(s, step)
    ensures !StrayWrite(s, step)
  {
  }

  lemma StrayWrites(s: Service) returns (step: Step)
    requires Manned(s) && s.strays != map[]
    ensures Enabled(s, step) && StrayWrite(s, step)
  {
    var id :| id in s.strays;
    step := if s.strays[id].run == Begun then Begin(id, "", "") else End(id, Broke(""), "", "");
    assert Moving(s)[id] == s.strays[id];
  }

  /** A forgotten task whose run writes again is taken back by the next restart; if the map was
      full, the oldest kept task is lost for it. */
  lemma ForgottenComesBack(s: Service, step: Step, now: string, mid: string)
    requires Kept(s) && Enabled(s, step) && |s.entries| == MAX_RETAINED_TASKS
    requires (step.Begin? || step.End?) && StrayWrite(s, step)
    ensures var r := Restarted(After(s, step).rows, now, mid);
            && step.id in r.entries && s.order != [] && s.order[0] !in r.entries
            && r.order == s.order[1..] + [step.id]
  {
    hide *;
    KeptIsBacked(s);
    KeptOrder(s);
    StrayWriteRows(s, step);
    var after := After(s, step);
    RestartTakesUp(after.rows, now, mid);
    BackedParts(s);
    FullOrder(s);
    NewestOf(after.rows, s.order, step.id);
    TakenUpKeys(after.rows, Restarted(after.rows, now, mid), now);
    LostFirst(s.order, step.id);
  }

  lemma StrayWriteRows(s: Service, step: Step)
    requires Kept(s) && Enabled(s, step) && (step.Begin? || step.End?) && StrayWrite(s, step)
    ensures Durable(After(s, step).rows) && step.id !in s.entries
    ensures AgeOrder(After(s, step).rows) == AgeOrder(s.rows) + [step.id]
  {
    KeptKeys(s);
    hide Kept; hide Mirrored; hide Durable; hide Recorded; hide Strayed; hide Concluded; hide AgeOrder; hide Lists;
    hide Backed;
    KeptIsBacked(s);
    MovingIs(s, step.id);
    var e := Moving(s)[step.id];
    match step
    case Begin(id, now, mid) =>
      StrayingKeeps(s, id, WentToWork(e, now), mid);
      BackedParts(After(s, step));
    case End(id, outcome, now, mid) =>
      ConcludedFacts(e.task, outcome, now);
      StrayingKeeps(s, id, WentHome(e, outcome, now), mid);
      BackedParts(After(s, step));
  }

  lemma FullOrder(s: Service)
    requires Shaped(s) && |s.entries| == MAX_RETAINED_TASKS
    ensures |s.order| == MAX_RETAINED_TASKS && s.order != [] && NoRepeats(s.order)
    ensures forall id :: id in s.order <==> id in s.entries
  {
    ListedFits(s.order, s.entries.Keys);
    assert |s.entries.Keys| == |s.entries|;
  }

  lemma NewestOf(rows: Table, order: seq<string>, id: string)
    requires AgeOrder(rows) == order + [id] && |order| == MAX_RETAINED_TASKS
    ensures Retained(rows) == order[1..] + [id]
  {
    hide AgeOrder;
  }

  lemma TakenUpKeys(rows: Table, r: Service, now: string)
    requires TakenUp(rows, r, now)
    ensures r.order == Retained(rows) && forall id :: id in r.entries <==> id in Retained(rows)
  {
    hide Retained; hide Revived; hide Stored; hide AgeOrder;
  }

  lemma LostFirst(order: seq<string>, id: string)
    requires order != [] && NoRepeats(order) && id !in order
    ensures id in order[1..] + [id] && order[0] !in order[1..] + [id]
  {
  }

  lemma EmptyIsKept()
    ensures Kept(EMPTY) && Orderly(EMPTY)
  {
    assert Unsettled(EMPTY.entries) == {};
  }

  // ------------------------------------------------------------------- eviction

  /** When room must be made, the oldest settled task goes and nothing else. */
  lemma OldestSettledGoes(s: Service) returns (p: nat)
    requires Shaped(s) && |Unsettled(s.entries)| < MAX_ACTIVE_TASKS && |s.entries| == MAX_RETAINED_TASKS
    ensures p < |s.order| && s.order[p] in s.entries && s.entries[s.order[p]].task.state.Settled()
    ensures forall j :: 0 <= j < p ==> s.order[j] in s.entries && !s.entries[s.order[j]].task.state.Settled()
    ensures Evicted(s.order, s.entries) == [s.order[p]]
    ensures Roomy(s).order == WithoutAt(s.order, p)
  {
    SomeoneIsSettled(s.order, s.entries);
    p := FirstEvictable(s.order, s.entries);
    FirstSettledGoes(s.order, s.entries, p);
    assert s.order[p] in s.order;
    assert forall j :: 0 <= j < p ==> s.order[j] in s.order;
    hide SettledIds;
    assert Evicted(s.order, s.entries) == [s.order[p]];
    assert ToSet([s.order[p]]) == {s.order[p]};
    DroppingOne(s.order, p);
  }

  lemma {:induction false} FirstEvictable(order: seq<string>, entries: Entries) returns (p: nat)
    requires SettledIds(order, entries) != []
    ensures p < |order| && Evictable(entries, order[p])
    ensures forall j :: 0 <= j < p ==> !Evictable(entries, order[j])
  {
    if Evictable(entries, order[0]) {
      p := 0;
    } else {
      var q := FirstEvictable(order[1..], entries);
      p := q + 1;
      assert forall j :: 0 < j < p ==> order[j] == order[1..][j - 1];
    }
  }

  lemma OnlySettledGo(s: Service)
    ensures forall id :: id in s.entries && !s.entries[id].task.state.Settled() ==> id in Roomy(s).entries
  {
    SettledIdsAreSettled(s.order, s.entries);
    hide SettledIds;
    hide Dropping;
    assert forall id :: id in Evicted(s.order, s.entries) ==> id in SettledIds(s.order, s.entries);
  }

  // ------------------------------------------------------------------- calm runs

  /** A cancel that arrives before the run's abort handle was stored: nothing is aborted. */
  predicate EarlyCancel(s: Service, step: Step) {
    step.Cancel? && CancelRefusal(s.entries, step.id).None? && !s.entries[step.id].handle
  }

  /** A run without such cancels. */
  ghost predicate Calm(s: Service, steps: seq<Step>)
    requires IsRun(s, steps)
    decreases |steps|
  {
    steps == [] || (!EarlyCancel(s, steps[0]) && Calm(After(s, steps[0]), steps[1..]))
  }

  /** Only unsettled tasks have a run, at most 32 are unsettled, and no run has lost its record. */
  ghost predicate Orderly(s: Service) {
    Quiet(s) && |Unsettled(s.entries)| <= MAX_ACTIVE_TASKS && s.strays == map[]
  }

  lemma UnsettledAfterSet(entries: Entries, id: string, entry: Entry)
    ensures Unsettled(entries[id := entry])
         == if entry.task.state.Settled() then Unsettled(entries) - {id} else Unsettled(entries) + {id}
  {
  }

  lemma UnsettledShrinks(s: set<string>, id: string)
    ensures |s - {id}| <= |s| && (id in s ==> |s + {id}| == |s|) && |s + {id}| <= |s| + 1
  {
    if id in s {
      assert s + {id} == s;
    } else {
      assert s - {id} == s;
    }
  }

  lemma SettingKeepsOrderly(s: Service, t: Service, id: string, entry: Entry)
    requires Orderly(s) && t.entries == s.entries[id := entry] && t.strays == s.strays
    requires entry.task.state.Settled() <==> entry.run == NoRun
    requires !entry.task.state.Settled() ==> id in Unsettled(s.entries) || |Unsettled(s.entries)| < MAX_ACTIVE_TASKS
    ensures Orderly(t)
  {
    UnsettledAfterSet(s.entries, id, entry);
    UnsettledShrinks(Unsettled(s.entries), id);
    hide Unsettled;
  }

  /** Only settled tasks are evicted, and those have no run. */
  lemma NothingGetsLoose(s: Service)
    requires Quiet(s) && s.strays == map[]
    ensures Roomy(s).strays == map[]
  {
    SettledIdsAreSettled(s.order, s.entries);
    hide SettledIds; hide Dropping;
    var evicted := Evicted(s.order, s.entries);
    assert forall id :: id in evicted ==> id in SettledIds(s.order, s.entries);
    assert Loose(s.entries, ToSet(evicted)) == map[];
  }

  lemma RoomKeepsOrderly(s: Service)
    requires Orderly(s)
    ensures Orderly(Roomy(s)) && Unsettled(Roomy(s).entries) == Unsettled(s.entries)
  {
    NothingGetsLoose(s);
    OnlySettledGo(s);
    RoomShrinks(s);
    hide Roomy;
    assert Unsettled(Roomy(s).entries) == Unsettled(s.entries);
  }

  lemma PublishingKeepsOrderly(s: Service, id: string, entry: Entry, mid: string)
    requires Orderly(s) && id in Moving(s) && Moving(s)[id].run != NoRun
    requires entry.task.state.Settled() <==> entry.run == NoRun
    ensures Orderly(Published(s, id, entry, mid))
  {
    hide Persisted;
    assert Moving(s) == s.entries;
    SettingKeepsOrderly(s, Published(s, id, entry, mid), id, entry);
  }

  /** Every step but an early cancel keeps the active tasks within 32 and settled tasks without a run. */
  lemma StepKeepsOrderly(s: Service, step: Step)
    requires Kept(s) && Orderly(s) && Enabled(s, step) && !EarlyCancel(s, step)
    ensures Orderly(After(s, step))
  {
    hide Kept; hide Roomy; hide Restarted; hide Persisted; hide Goal; hide FollowsUp; hide Moving; hide Published;
    hide Concluded;
    match step
    case Start(params, id, context, now, mid) =>
      if StartRefusal(s.entries, params).None? {
        RoomKeepsOrderly(s);
        SettingKeepsOrderly(Roomy(s), After(s, step), id, Entry(Submission(params, id, context, now), Begun, false));
      }
    case KeepHandle(id) =>
      if id in s.entries {
        SettingKeepsOrderly(s, After(s, step), id, s.entries[id].(handle := true));
      }
    case Begin(id, now, mid) =>
      PublishingKeepsOrderly(s, id, WentToWork(Moving(s)[id], now), mid);
    case End(id, outcome, now, mid) =>
      ConcludedFacts(Moving(s)[id].task, outcome, now);
      PublishingKeepsOrderly(s, id, WentHome(Moving(s)[id], outcome, now), mid);
    case Cancel(id, now, mid) =>
      if CancelRefusal(s.entries, id).None? {
        SettingKeepsOrderly(s, After(s, step), id, After(s, step).entries[id]);
      }
    case Restart(now, mid) =>
      RestartRevives(s, now, mid);
      RebornIsOrderly(s, After(s, step), now);
  }

  lemma RebornIsOrderly(s: Service, r: Service, now: string)
    requires Reborn(s, r, now)
    ensures Orderly(r)
  {
    hide Revived;
    forall id | id in r.entries
      ensures r.entries[id].task.state.Settled() && r.entries[id].run == NoRun
    {
      RevivedFacts(s.entries[id].task, now);
    }
    assert Unsettled(r.entries) == {};
  }

  lemma OrderlyHasNoStrays(s: Service, step: Step)
    requires Orderly(s) && Enabled(s, step)
    ensures !StrayWrite(s, step)
  {
    hide Unsettled;
    NoStraysNoWrites(s, step);
  }

  /** Without early cancels the rows always mirror the records, at most 32 tasks are active, and
      settled tasks have no run. */
  lemma {:induction false} RunKeeps(s: Service, steps: seq<Step>)
    requires Kept(s) && Orderly(s) && IsRun(s, steps) && Calm(s, steps)
    ensures Kept(Final(s, steps)) && Orderly(Final(s, steps)) && AlwaysMirrored(s, steps)
    decreases |steps|
  {
    hide Kept; hide Orderly; hide Mirrored; hide After; hide Enabled; hide EarlyCancel;
    KeptMirrors(s);
    if steps != [] {
      OrderlyHasNoStrays(s, steps[0]);
      StepKeeps(s, steps[0]);
      StepKeepsOrderly(s, steps[0]);
      RunKeeps(After(s, steps[0]), steps[1..]);
    }
  }

  lemma KeptMirrors(s: Service)
    requires Kept(s)
    ensures Mirrored(s)
  {
  }

  // --------------------------------------------------------------- settled tasks

  /** Ids are drawn fresh: nothing is started under an id a second time. */
  predicate NeverStarts(steps: seq<Step>, id: string) {
    forall i :: 0 <= i < |steps| && steps[i].Start? ==> steps[i].id != id
  }

  /** The task is settled and has no run, or is forgotten. */
  predicate AtRest(s: Service, id: string) {
    && id !in s.strays
    && (id in s.entries ==> s.entries[id].task.state.Settled() && s.entries[id].run == NoRun)
  }

  /** The record is gone, or still says what it said. */
  predicate StillSays(s: Service, id: string, task: WireTask) {
    id in s.entries ==> s.entries[id].task == task || s.entries[id].task == Normalise(task)
  }

  /** So does its row. */
  predicate RowSays(s: Service, id: string, task: WireTask) {
    id in s.rows ==> Stored(s.rows[id]) == Normalise(task)
  }

  /** At rest, and saying the same thing in memory and on disk. */
  ghost predicate Rests(s: Service, id: string, task: WireTask) {
    AtRest(s, id) && StillSays(s, id, task) && RowSays(s, id, task) && task.state.Settled()
  }

  lemma OthersRest(s: Service, t: Service, id: string, task: WireTask)
    requires Rests(s, id, task)
    requires id in t.entries ==>
               id in s.entries && t.entries[id].task == s.entries[id].task && t.entries[id].run == s.entries[id].run
    requires id in t.rows ==> id in s.rows && t.rows[id] == s.rows[id]
    requires id in t.strays ==> id in s.strays
    ensures Rests(t, id, task)
  {
    hide Stored; hide Normalise;
  }

  lemma RoomRests(s: Service, id: string, task: WireTask)
    requires Rests(s, id, task)
    ensures Rests(Roomy(s), id, task)
  {
    hide Stored; hide Normalise; hide Evicted; hide Dropping; hide Rests;
    assert AtRest(s, id) by { RestsIs(s, id, task); }
    OthersRest(s, Roomy(s), id, task);
  }

  lemma RestsIs(s: Service, id: string, task: WireTask)
    requires Rests(s, id, task)
    ensures AtRest(s, id)
  {
  }

  lemma PersistedElsewhere(rows: Table, task: WireTask, mid: string, id: string)
    requires id != task.id
    ensures var after := Persisted(rows, task, mid);
            (id in after <==> id in rows) && (id in after ==> after[id] == rows[id])
  {
    hide TaskJson; hide RenderState;
  }

  /** A step that writes another task's record and row, or strays elsewhere. */
  lemma PublishingRests(s: Service, other: string, entry: Entry, mid: string, id: string, task: WireTask)
    requires Rests(s, id, task) && other != id && entry.task.id == other
    ensures Rests(Published(s, other, entry, mid), id, task) && Rests(Rewritten(s, other, entry, mid), id, task)
  {
    hide Persisted; hide Rests;
    PersistedElsewhere(s.rows, entry.task, mid, id);
    OthersRest(s, Published(s, other, entry, mid), id, task);
    OthersRest(s, Rewritten(s, other, entry, mid), id, task);
  }

  lemma RestartRests(s: Service, r: Service, now: string, id: string, task: WireTask)
    requires TakenUp(s.rows, r, now) && Durable(s.rows) && Rests(s, id, task)
    ensures Rests(r, id, task)
  {
    hide Durable; hide Normalise; hide Stored; hide Revived; hide Retained; hide AgeOrder; hide ToSet;
    assert forall i :: i in r.entries ==> i in s.rows by { RetainedHaveRows(s.rows, r, now); }
    if id in s.rows {
      NormaliseKeepsTheRest(task);
      RevivedFacts(task, now);
      RevivedOfNormal(task, now);
    }
  }

  lemma RetainedHaveRows(rows: Table, r: Service, now: string)
    requires TakenUp(rows, r, now) && Durable(rows)
    ensures forall id :: id in r.entries ==> id in rows
  {
    RetainedFacts(rows);
    hide Durable; hide Retained; hide Revived; hide Stored; hide AgeOrder;
  }

  /** Whatever happens next, a task at rest stays so and says the same. */
  lemma StepLeavesRest(s: Service, step: Step, id: string, task: WireTask)
    requires Backed(s) && Enabled(s, step) && Rests(s, id, task)
    requires step.Start? ==> step.id != id
    ensures Rests(After(s, step), id, task)
  {
    hide Backed; hide Restarted; hide Roomy; hide Persisted; hide Rests; hide Published; hide Rewritten; hide Concluded;
    hide Goal; hide FollowsUp; hide Moving; hide Unsettled;
    RestsIs(s, id, task);
    match step
    case Start(params, other, context, now, mid) =>
      if StartRefusal(s.entries, params).None? {
        RoomRests(s, id, task);
        PersistedElsewhere(Roomy(s).rows, Submission(params, other, context, now), mid, id);
        OthersRest(Roomy(s), After(s, step), id, task);
      }
    case KeepHandle(other) =>
      if other in s.entries {
        OthersRest(s, After(s, step), id, task);
      }
    case Begin(other, now, mid) =>
      MovingIs(s, other);
      PublishingRests(s, other, WentToWork(Moving(s)[other], now), mid, id, task);
    case End(other, outcome, now, mid) =>
      MovingIs(s, other);
      ConcludedFacts(Moving(s)[other].task, outcome, now);
      PublishingRests(s, other, WentHome(Moving(s)[other], outcome, now), mid, id, task);
    case Cancel(other, now, mid) =>
      if CancelRefusal(s.entries, other).None? {
        assert s.entries[other].task.id == other by {
          BackedParts(s);
          EntryId(s, other);
        }
        var e := s.entries[other];
        var entry := e.(task := Cancelled(e.task, now), run := if e.handle then NoRun else e.run);
        PublishingRests(s, other, entry, mid, id, task);
      }
    case Restart(now, mid) =>
      BackedParts(s);
      RestartTakesUp(s.rows, now, mid);
      RestartRests(s, After(s, step), now, id, task);
  }

  lemma {:induction false} RestForGood(s: Service, steps: seq<Step>, id: string, task: WireTask)
    requires Backed(s) && IsRun(s, steps) && NeverStarts(steps, id) && Rests(s, id, task)
    ensures Rests(Final(s, steps), id, task)
    decreases |steps|
  {
    hide Backed; hide Rests; hide After; hide Enabled;
    if steps != [] {
      StepKeepsBacked(s, steps[0]);
      StepLeavesRest(s, steps[0], id, task);
      RestForGood(After(s, steps[0]), steps[1..], id, task);
    }
  }

  lemma RecordRests(s: Service, id: string)
    requires Backed(s) && id in s.entries && AtRest(s, id)
    ensures Rests(s, id, s.entries[id].task)
  {
    hide Shaped; hide Manned; hide Durable; hide Ascending; hide ParseTask; hide Normalise; hide RenderState;
  }

  /** A settled task whose run is over is left as it is by whatever happens afterwards, restarts
      and others' runs included: its record says the same, normalised after a restart, until it is evicted. */
  lemma SettledForGood(s: Service, steps: seq<Step>, id: string)
    requires Backed(s) && IsRun(s, steps) && NeverStarts(steps, id)
    requires id in s.entries && s.entries[id].task.state.Settled() && s.entries[id].run == NoRun
    ensures StillSays(Final(s, steps), id, s.entries[id].task)
  {
    assert id !in s.strays by {
      BackedParts(s);
      RecordsAreNoStrays(s, id);
    }
    hide Backed; hide Final; hide Normalise; hide Stored;
    RecordRests(s, id);
    RestForGood(s, steps, id, s.entries[id].task);
  }

  lemma RecordsAreNoStrays(s: Service, id: string)
    requires Manned(s) && id in s.entries
    ensures id !in s.strays
  {
  }

  // --------------------------------------------------------------------- cancels

  /** Cancelled and still so, or forgotten. */
  predicate StaysCancelled(s: Service, id: string) {
    id in s.entries ==> s.entries[id].task.state == Canceled
  }

  /** No continuation takes the cancellation back. */
  ghost predicate CancelHolds(c: Service, id: string) {
    forall steps :: IsRun(c, steps) && NeverStarts(steps, id) ==> StaysCancelled(Final(c, steps), id)
  }

  /** A cancelled task stays cancelled in every continuation exactly when its abort handle had
      been stored; otherwise its run goes on and overwrites the cancellation. */
  lemma CancelHoldsIffHandleStored(s: Service, id: string, now: string, mid: string)
    requires Backed(s) && id in s.entries && !s.entries[id].task.state.Settled()
    ensures CancelHolds(After(s, Cancel(id, now, mid)), id) <==> s.entries[id].handle
  {
    hide *;
    BackedParts(s);
    CancelFacts(s, id, now, mid);
    var c := After(s, Cancel(id, now, mid));
    StepKeepsBacked(s, Cancel(id, now, mid));
    if s.entries[id].handle {
      AbortedCancelHolds(c, id);
    } else {
      RunGoesOn(c, id, now, mid);
    }
  }

  lemma AbortedCancelHolds(c: Service, id: string)
    requires Backed(c) && id in c.entries && c.entries[id].task.state == Canceled && c.entries[id].run == NoRun
    ensures CancelHolds(c, id)
  {
    hide Backed; hide Final; hide IsRun; hide Normalise;
    NormaliseKeepsTheRest(c.entries[id].task);
    forall steps | IsRun(c, steps) && NeverStarts(steps, id)
      ensures StaysCancelled(Final(c, steps), id)
    {
      SettledForGood(c, steps, id);
    }
  }

  lemma CancelFacts(s: Service, id: string, now: string, mid: string)
    requires Manned(s) && id in s.entries && !s.entries[id].task.state.Settled()
    ensures Enabled(s, Cancel(id, now, mid))
    ensures var c := After(s, Cancel(id, now, mid));
            && id in c.entries && c.entries[id].task.state == Canceled
            && (s.entries[id].handle <==> c.entries[id].run == NoRun)
  {
    hide Persisted;
  }

  /** The overwriting step: a run nobody aborted moves its cancelled task on. */
  lemma RunGoesOn(c: Service, id: string, now: string, mid: string)
    requires id in c.entries && c.entries[id].run != NoRun
    ensures !CancelHolds(c, id)
  {
    var next := if c.entries[id].run == Begun then Begin(id, now, mid) else End(id, Broke(""), now, mid);
    assert Moving(c)[id] == c.entries[id];
    var steps := [next];
    assert steps[1..] == [];
    assert IsRun(c, steps);
    assert Final(c, steps) == After(c, next);
  }

  // ------------------------------------------------- both cases, from an empty server

  lemma {:induction false} RunsCompose(s: Service, a: seq<Step>, b: seq<Step>)
    requires IsRun(s, a) && IsRun(Final(s, a), b)
    ensures IsRun(s, a + b) && Final(s, a + b) == Final(Final(s, a), b)
    decreases |a|
  {
    hide After; hide Enabled;
    if a == [] {
      assert a + b == b;
    } else {
      assert (a + b)[1..] == a[1..] + b;
      RunsCompose(After(s, a[0]), a[1..], b);
    }
  }

  lemma OneMoreStep(s: Service, steps: seq<Step>, step: Step) returns (more: seq<Step>)
    requires IsRun(s, steps) && Enabled(Final(s, steps), step)
    ensures IsRun(s, more) && Final(s, more) == After(Final(s, steps), step)
  {
    hide After; hide Enabled;
    more := steps + [step];
    assert [step][1..] == [];
    RunsCompose(s, steps, [step]);
  }

  predicate Usable(params: Json) {
    Goal(params) != [] && !FollowsUp(params)
  }

  lemma StartFields(s: Service, params: Json, id: string)
    requires Usable(params) && |Unsettled(s.entries)| < MAX_ACTIVE_TASKS
    requires id !in s.entries && id !in s.rows && id !in s.strays
    ensures var step := Start(params, id, "", "", "");
            && Enabled(s, step) && !StrayWrite(s, step)
            && After(s, step).entries == Roomy(s).entries[id := Entry(Submission(params, id, "", ""), Begun, false)]
            && After(s, step).order == Roomy(s).order + [id] && After(s, step).strays == Roomy(s).strays
  {
    hide Roomy; hide Persisted; hide Goal; hide FollowsUp; hide Unsettled; hide ContextOf;
  }

  /** A task is taken in: it has begun, and cannot be aborted yet. */
  lemma StartFacts(s: Service, params: Json, id: string)
    requires Usable(params) && Kept(s) && |Unsettled(s.entries)| < MAX_ACTIVE_TASKS
    requires id !in s.entries && id !in s.strays
    ensures var step := Start(params, id, "", "", "");
            && Enabled(s, step) && Kept(After(s, step))
            && After(s, step).entries == Roomy(s).entries[id := Entry(Submission(params, id, "", ""), Begun, false)]
            && After(s, step).order == Roomy(s).order + [id] && After(s, step).strays == Roomy(s).strays
  {
    hide *;
    KeptKeys(s);
    StartFields(s, params, id);
    StepKeeps(s, Start(params, id, "", "", ""));
  }

  lemma SubmittedIsUnsettled(params: Json, id: string)
    ensures !Submission(params, id, "", "").state.Settled() && Submission(params, id, "", "").id == id
  {
  }

  lemma HandleFields(s: Service, id: string)
    requires id in s.entries
    ensures Enabled(s, KeepHandle(id)) && id in After(s, KeepHandle(id)).entries
    ensures After(s, KeepHandle(id)).entries[id] == s.entries[id].(handle := true)
  {
  }

  lemma EmptyHasRoom()
    ensures Kept(EMPTY) && |Unsettled(EMPTY.entries)| < MAX_ACTIVE_TASKS && EMPTY == Service(map[], [], map[], map[])
  {
    EmptyIsKept();
    assert Unsettled(EMPTY.entries) == {};
  }

  /** Both cases happen: a fresh server that was sent a goal has an unsettled task whose handle
      is not stored, and one step later it is. */
  lemma CancelCanComeEarly(params: Json, id: string)
    requires Usable(params)
    ensures exists s :: Reachable(s) && id in s.entries && !s.entries[id].task.state.Settled() && !s.entries[id].handle
    ensures exists s :: Reachable(s) && id in s.entries && !s.entries[id].task.state.Settled() && s.entries[id].handle
  {
    hide *;
    EmptyHasRoom();
    StartFacts(EMPTY, params, id);
    ReachedEmpty();
    var s := After(EMPTY, Start(params, id, "", "", ""));
    SubmittedIsUnsettled(params, id);
    ReachedNext(EMPTY, Start(params, id, "", "", ""));
    HandleFields(s, id);
    ReachedNext(s, KeepHandle(id));
  }

  /** A state some run from an empty server ends in. */
  ghost predicate Reachable(s: Service) {
    exists steps :: IsRun(EMPTY, steps) && Final(EMPTY, steps) == s
  }

  lemma ReachedEmpty()
    ensures Reachable(EMPTY)
  {
    assert IsRun(EMPTY, []) && Final(EMPTY, []) == EMPTY;
  }

  lemma ReachedNext(s: Service, step: Step)
    requires Reachable(s) && Enabled(s, step)
    ensures Reachable(After(s, step))
  {
    var steps :| IsRun(EMPTY, steps) && Final(EMPTY, steps) == s;
    var more := OneMoreStep(EMPTY, steps, step);
  }

  /** `n` tasks were started and all cancelled too early to be stopped. */
  ghost predicate AllCancelledEarly(s: Service, n: nat) {
    && Kept(s) && s.strays == map[] && |s.order| == n
    && (forall id :: id in s.entries ==> |id| < n && s.entries[id].task.state.Settled() && s.entries[id].run == Begun)
  }

  /** Ids of their own. */
  function Tally(n: nat): (id: string)
    ensures |id| == n
  {
    seq(n, i => 'a')
  }

  lemma CancelledFacts(s: Service, n: nat)
    requires AllCancelledEarly(s, n)
    ensures Kept(s) && s.strays == map[] && |s.entries| == n && |Unsettled(s.entries)| < MAX_ACTIVE_TASKS
    ensures Lists(s.order, s.entries.Keys) && Backed(s)
  {
    hide Mirrored; hide Durable; hide Recorded;
    ListedFits(s.order, s.entries.Keys);
    assert |s.entries.Keys| == |s.entries|;
    assert Unsettled(s.entries) == {};
  }

  lemma NoRoomNeeded(s: Service)
    requires |s.entries| < MAX_RETAINED_TASKS
    ensures Roomy(s) == s
  {
    hide SettledIds;
    assert Evicted(s.order, s.entries) == [];
    assert ToSet(Evicted(s.order, s.entries)) == {};
    DroppingNothing(s.order, {});
    assert s.entries - {} == s.entries && s.rows - {} == s.rows;
    assert Loose(s.entries, {}) == map[];
    assert s.strays + map[] == s.strays;
  }

  lemma OneMoreCancelledEarly(s: Service, n: nat, params: Json)
    requires Usable(params) && AllCancelledEarly(s, n) && n < MAX_RETAINED_TASKS && Reachable(s)
    ensures exists t :: Reachable(t) && AllCancelledEarly(t, n + 1)
  {
    hide *;
    var id := Tally(n);
    CancelledFacts(s, n);
    NoRoomNeeded(s);
    CancelledIsKept(s, n, id);
    StartFacts(s, params, id);
    var started := After(s, Start(params, id, "", "", ""));
    ReachedNext(s, Start(params, id, "", "", ""));
    CancelsEarly(s, started, n, params, id);
    ReachedNext(started, Cancel(id, "", ""));
  }

  lemma CancelledIsKept(s: Service, n: nat, id: string)
    requires AllCancelledEarly(s, n) && |id| >= n
    ensures Kept(s) && id !in s.entries && id !in s.strays
  {
    hide Kept;
  }

  lemma EarlyCancelFields(t: Service, id: string)
    requires id in t.entries && !t.entries[id].task.state.Settled() && !t.entries[id].handle
    ensures var step := Cancel(id, "", "");
            && Enabled(t, step) && !StrayWrite(t, step)
            && After(t, step).entries
               == t.entries[id := Entry(Cancelled(t.entries[id].task, ""), t.entries[id].run, false)]
            && After(t, step).order == t.order && After(t, step).strays == t.strays
  {
    hide Persisted;
  }

  lemma OneMoreSettled(s: Service, n: nat, t: Service, id: string, entry: Entry)
    requires AllCancelledEarly(s, n) && |id| == n && Kept(t)
    requires t.entries == s.entries[id := entry] && t.order == s.order + [id] && t.strays == map[]
    requires entry.task.state.Settled() && entry.run == Begun
    ensures AllCancelledEarly(t, n + 1)
  {
    hide Kept;
  }

  lemma CancelsEarly(s: Service, t: Service, n: nat, params: Json, id: string)
    requires AllCancelledEarly(s, n) && |id| == n && Kept(t)
    requires t.entries == s.entries[id := Entry(Submission(params, id, "", ""), Begun, false)]
    requires t.order == s.order + [id] && t.strays == map[]
    ensures Enabled(t, Cancel(id, "", "")) && AllCancelledEarly(After(t, Cancel(id, "", "")), n + 1)
  {
    hide *;
    SubmittedIsUnsettled(params, id);
    EarlyCancelFields(t, id);
    StepKeeps(t, Cancel(id, "", ""));
    var entry := Entry(Cancelled(t.entries[id].task, ""), Begun, false);
    assert entry.task.state.Settled() by { CancelledIsSettled(t.entries[id].task); }
    assert t.entries[id := entry] == s.entries[id := entry];
    OneMoreSettled(s, n, After(t, Cancel(id, "", "")), id, entry);
  }

  lemma CancelledIsSettled(task: WireTask)
    ensures Cancelled(task, "").state.Settled()
  {
  }

  lemma {:induction false} ManyCancelledEarly(n: nat, params: Json)
    requires Usable(params) && n <= MAX_RETAINED_TASKS
    ensures exists s :: Reachable(s) && AllCancelledEarly(s, n)
  {
    hide AllCancelledEarly; hide Reachable; hide Usable;
    if n == 0 {
      ReachedEmpty();
      NoneCancelledYet();
    } else {
      ManyCancelledEarly(n - 1, params);
      var s :| Reachable(s) && AllCancelledEarly(s, n - 1);
      OneMoreCancelledEarly(s, n - 1, params);
    }
  }

  lemma NoneCancelledYet()
    ensures AllCancelledEarly(EMPTY, 0)
  {
    EmptyIsKept();
    hide Kept;
  }

  lemma OneGetsLoose(s: Service, id: string)
    requires Evicted(s.order, s.entries) == [id] && id in s.entries && s.entries[id].run != NoRun
    ensures id in Roomy(s).strays && |Roomy(s).entries| == |s.entries| - 1
  {
    hide Evicted; hide Dropping;
    assert ToSet([id]) == {id};
    RemoveOne(s.entries, id);
  }

  /** With the map full, the next start forgets the oldest of them, whose run goes on. */
  lemma OldestGetsLoose(s: Service)
    requires AllCancelledEarly(s, MAX_RETAINED_TASKS)
    ensures Roomy(s).strays != map[] && |Roomy(s).entries| == MAX_RETAINED_TASKS - 1
  {
    CancelledFacts(s, MAX_RETAINED_TASKS);
    hide Kept; hide Evicted; hide Roomy; hide Backed; hide Lists; hide Unsettled;
    BackedParts(s);
    var p := OldestSettledGoes(s);
    OneGetsLoose(s, s.order[p]);
  }

  /** From an empty server, whatever goal is sent: a full map whose rows mirror it, and a run
      whose record was forgotten and whose next write ends that. */
  lemma StraysHappen(params: Json) returns (s: Service, step: Step)
    requires Usable(params)
    ensures Reachable(s) && Kept(s) && |s.entries| == MAX_RETAINED_TASKS
    ensures (step.Begin? || step.End?) && Enabled(s, step) && StrayWrite(s, step) && !Mirrored(After(s, step))
  {
    hide *;
    ManyCancelledEarly(MAX_RETAINED_TASKS, params);
    var full :| Reachable(full) && AllCancelledEarly(full, MAX_RETAINED_TASKS);
    var id := Tally(MAX_RETAINED_TASKS);
    OldestGetsLoose(full);
    CancelledFacts(full, MAX_RETAINED_TASKS);
    CancelledIsKept(full, MAX_RETAINED_TASKS, id);
    StartFacts(full, params, id);
    ReachedNext(full, Start(params, id, "", "", ""));
    s := After(full, Start(params, id, "", "", ""));
    FullAgain(full, s, params, id);
    KeptIsBacked(s);
    BackedParts(s);
    step := StrayWrites(s);
    StepKeepsIff(s, step);
    StrayWritesAreRunSteps(s, step);
  }

  lemma StrayWritesAreRunSteps(s: Service, step: Step)
    requires StrayWrite(s, step)
    ensures step.Begin? || step.End?
  {
  }

  lemma FullAgain(full: Service, s: Service, params: Json, id: string)
    requires id !in full.entries && |Roomy(full).entries| == MAX_RETAINED_TASKS - 1
    requires s.entries == Roomy(full).entries[id := Entry(Submission(params, id, "", ""), Begun, false)]
    ensures |s.entries| == MAX_RETAINED_TASKS
  {
    RoomShrinks(full);
    SetCounts(Roomy(full).entries, id, Entry(Submission(params, id, "", ""), Begun, false));
  }
}
