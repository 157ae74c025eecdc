/** Subscriptions to one A2A task: a bounded update channel beside a snapshot, and a reader of both. */
module TaskStreams {
  import opened Tasks
  import opened Text
  import opened Wire

  /** What a run or a cancellation announces. */
  datatype Update = Status(task: WireTask) | Chunk(text: string)

  /** A task's snapshot and channel. A change is two steps: the snapshot is overwritten, then
      the change is sent; `pending` are the states its writers are about to send. The channel
      keeps the last `capacity` updates, and is open while somebody could still send. */
  datatype Feed = Feed(task: WireTask, pending: seq<WireTask>, sent: seq<Update>, capacity: nat, open: bool)

  /** The place of the oldest update the channel still holds: it holds the newest, as many as fit. */
  function Oldest(feed: Feed): (i: nat)
    ensures i <= |feed.sent| && |feed.sent| - i <= feed.capacity
    ensures i > 0 ==> |feed.sent| - i == feed.capacity
  {
    if |feed.sent| <= feed.capacity then 0 else |feed.sent| - feed.capacity
  }

  /** What a subscriber is shown: a full snapshot, a changed status, or output. */
  datatype Event = Full(task: WireTask) | Changed(task: WireTask) | Output(task: WireTask, text: string)

  predicate Settles(event: Event) {
    !event.Output? && event.task.state.Settled()
  }

  function Render(event: Event, mid: string, dialect: Dialect): Json {
    match event
    case Full(task) => SendResultJson(task, mid, dialect)
    case Changed(task) => StatusEventJson(task, mid, dialect)
    case Output(task, text) => ArtifactEventJson(task, "stream", text, dialect)
  }

  /** A subscriber; `ready` once the snapshot was read, which is after the channel was joined. */
  datatype Reader = Reader(ready: bool, first: Option<WireTask>, position: nat, done: bool)

  predicate Blocked(feed: Feed, reader: Reader) {
    !reader.ready || (!reader.done && reader.first.None? && reader.position >= |feed.sent| && feed.open)
  }

  function Advance(feed: Feed, reader: Reader): (Reader, Option<Event>)
    requires !Blocked(feed, reader)
  {
    if reader.done then (reader, None)
    else if reader.first.Some? then
      (reader.(first := None, done := reader.first.value.state.Settled()), Some(Full(reader.first.value)))
    else if reader.position < Oldest(feed) then
      (reader.(position := Oldest(feed), done := feed.task.state.Settled()), Some(Full(feed.task)))
    else if reader.position < |feed.sent| then
      match feed.sent[reader.position]
      case Chunk(text) => (reader.(position := reader.position + 1), Some(Output(feed.task, text)))
      case Status(task) => (reader.(position := reader.position + 1, done := task.state.Settled()), Some(Changed(task)))
    else
      (reader.(done := true), Some(Full(feed.task)))
  }

  // -------------------------------------------------------------- the imperative form

  class Channel {
    var task: WireTask
    var pending: seq<WireTask>
    var sent: seq<Update>
    const capacity: nat
    var open: bool

    constructor (task: WireTask, capacity: nat)
      ensures Value() == Feed(task, [], [], capacity, true)
    {
      this.task, this.pending, this.sent, this.capacity, this.open := task, [], [], capacity, true;
    }

    function Value(): Feed
      reads this
    {
      Feed(task, pending, sent, capacity, open)
    }
  }

  class TaskStream {
    const channel: Channel
    var first: Option<WireTask>
    var position: nat
    var done: bool

    function Value(): Reader
      reads this
    {
      Reader(true, first, position, done)
    }

    /** Join the channel, then read the snapshot, so nothing falls between. */
    constructor (channel: Channel)
      ensures this.channel == channel
      ensures Value() == Reader(true, Some(channel.task), |channel.sent|, false)
    {
      this.channel := channel;
      this.position := |channel.sent|;
      this.first := Some(channel.task);
      this.done := false;
    }

    /** The next event, or none once the task has settled. */
    method Next() returns (event: Option<Event>)
      requires !Blocked(channel.Value(), Value())
      modifies this
      ensures (Value(), event) == Advance(channel.Value(), old(Value()))
    {
      if done {
        return None;
      }
      if first.Some? {
        var task := first.value;
        first := None;
        done := task.state.Settled();
        return Some(Full(task));
      }
      var oldest := if |channel.sent| <= channel.capacity then 0 else |channel.sent| - channel.capacity;
      if position < oldest {
        // A slow reader missed updates: resynchronise.
        position := oldest;
        done := channel.task.state.Settled();
        return Some(Full(channel.task));
      }
      if position >= |channel.sent| {
        // Closed: nobody is left to send.
        done := true;
        return Some(Full(channel.task));
      }
      var update := channel.sent[position];
      position := position + 1;
      match update {
        case Chunk(text) =>
          event := Some(Output(channel.task, text));
        case Status(task) =>
          done := task.state.Settled();
          event := Some(Changed(task));
      }
    }
  }

  /** A caller that started the task always gets its stream; another one only before it is finished. */
  method Subscribe(channel: Channel, starter: bool) returns (stream: TaskStream?)
    ensures stream == null <==> !starter && channel.task.state.Terminal()
    ensures stream != null ==> fresh(stream) && stream.channel == channel
                               && stream.Value() == Reader(true, Some(channel.task), |channel.sent|, false)
  {
    if !starter && channel.task.state.Terminal() {
      return null;
    }
    stream := new TaskStream(channel);
  }

  // ----------------------------------------------------------------- interleavings

  /** What the run and a cancelling caller do to the feed. */
  datatype Write =
    | Change(task: WireTask)  // the snapshot is overwritten
    | Reread(i: nat)          // a writer takes what it will send from the snapshot
    | Announce(i: nat)        // and sends it
    | Emit(text: string)      // a chunk of output is sent
    | Close                   // the record was dropped and the run is over

  /** Any number of writers, in any order, settled task or not, while the channel is open. */
  predicate CanWrite(feed: Feed, w: Write) {
    && feed.open
    && match w
       case Reread(i) => i < |feed.pending|
       case Announce(i) => i < |feed.pending|
       case Close => feed.pending == []
       case _ => true
  }

  function Written(feed: Feed, w: Write): Feed
    requires CanWrite(feed, w)
  {
    match w
    case Change(task) => feed.(task := task, pending := feed.pending + [task])
    case Reread(i) => feed.(pending := feed.pending[i := feed.task])
    case Announce(i) =>
      feed.(sent := feed.sent + [Status(feed.pending[i])], pending := feed.pending[..i] + feed.pending[i + 1..])
    case Emit(text) => feed.(sent := feed.sent + [Chunk(text)])
    case Close => feed.(open := false)
  }

  /** One task's channel, one subscriber, and everything the subscriber was shown. */
  datatype System = System(feed: Feed, reader: Reader, shown: seq<Event>)

  datatype Step =
    | Writer(w: Write)
    | ReadSnapshot            // the subscriber's second half
    | Next                    // the subscriber asks for an event

  predicate Enabled(s: System, step: Step) {
    match step
    case Writer(w) => CanWrite(s.feed, w)
    case ReadSnapshot => !s.reader.ready
    case Next => !Blocked(s.feed, s.reader)
  }

  function After(s: System, step: Step): System
    requires Enabled(s, step)
  {
    match step
    case Writer(w) => s.(feed := Written(s.feed, w))
    case ReadSnapshot => s.(reader := s.reader.(ready := true, first := Some(s.feed.task)))
    case Next =>
      var (reader, event) := Advance(s.feed, s.reader);
      System(s.feed, reader, if event.Some? then s.shown + [event.value] else s.shown)
  }

  ghost predicate IsRun(s: System, steps: seq<Step>)
    decreases |steps|
  {
    steps == [] || (Enabled(s, steps[0]) && IsRun(After(s, steps[0]), steps[1..]))
  }

  ghost function Final(s: System, steps: seq<Step>): System
    requires IsRun(s, steps)
    decreases |steps|
  {
    if steps == [] then s else Final(After(s, steps[0]), steps[1..])
  }

  /** A subscriber that has joined the channel, at any point of the task's life and of anybody's change. */
  predicate Arrived(s: System) {
    && s.reader == Reader(false, None, |s.feed.sent|, false) && s.shown == []
    && (s.feed.open || s.feed.pending == [])
  }

  /** So has this one; and what is about to be sent is unsettled, overtaken or not, or the current
      state. A settled state is overtaken only between a cancel's two halves, and nobody joins there:
      cancelling and subscribing exclude each other. */
  predicate Joined(s: System) {
    Arrived(s) && forall i :: 0 <= i < |s.feed.pending| ==> TellsOnly(s.feed.pending[i], s.feed.task)
  }

  predicate TellsOnly(task: WireTask, last: WireTask) {
    task.state.Settled() ==> task == last
  }

  predicate SettledUpdate(update: Update) {
    update.Status? && update.task.state.Settled()
  }

  /** A settled state is still ahead of the subscriber. */
  ghost predicate StillToCome(feed: Feed, reader: Reader) {
    || !reader.ready
    || (reader.first.Some? && reader.first.value.state.Settled())
    || (exists i :: 0 <= i < |feed.pending| && feed.pending[i].state.Settled())
    || exists i :: reader.position <= i < |feed.sent| && SettledUpdate(feed.sent[i])
  }

  /** The channel was closed on an unsettled task. */
  predicate CutShort(feed: Feed) {
    !feed.open && !feed.task.state.Settled()
  }

  predicate OnlyLastSettles(shown: seq<Event>) {
    forall i :: 0 <= i < |shown| - 1 ==> !Settles(shown[i])
  }

  ghost predicate Inv(s: System) {
    && s.reader.position <= |s.feed.sent|
    && (s.reader.ready && s.reader.first.None? <==> s.shown != [])
    && (!s.reader.ready ==> s.reader.first.None? && !s.reader.done)
    && (s.shown != [] ==> s.shown[0].Full? && (Settles(s.shown[|s.shown| - 1]) ==> s.reader.done))
    && OnlyLastSettles(s.shown)
    && (s.reader.done ==> s.shown != [] && (Settles(s.shown[|s.shown| - 1]) || CutShort(s.feed)))
    && (s.feed.task.state.Settled() && !s.reader.done ==> StillToCome(s.feed, s.reader))
    && (!s.feed.open ==> s.feed.pending == [])
  }

  lemma ArrivedIsInv(s: System)
    requires Arrived(s)
    ensures Inv(s)
  {
  }

  lemma NextKeepsInv(s: System)
    requires Inv(s) && !Blocked(s.feed, s.reader)
    ensures Inv(After(s, Next))
  {
    var after := After(s, Next);
    if s.feed.task.state.Settled() && !after.reader.done {
      if i :| s.reader.position <= i < |s.feed.sent| && SettledUpdate(s.feed.sent[i]) {
        assert i >= after.reader.position;
      }
    }
  }

  lemma WriteKeepsStillToCome(feed: Feed, reader: Reader, w: Write)
    requires CanWrite(feed, w) && (feed.task.state.Settled() ==> StillToCome(feed, reader))
    requires reader.position <= |feed.sent|
    ensures Written(feed, w).task.state.Settled() ==> StillToCome(Written(feed, w), reader)
  {
    var after := Written(feed, w);
    match w
    case Change(task) => assert after.pending[|feed.pending|] == task;
    case Reread(i) => assert after.pending[i] == feed.task;
    case Announce(i) =>
      assert after.sent[|feed.sent|] == Status(feed.pending[i]);
      assert forall j :: 0 <= j < |feed.pending| && j != i ==>
          feed.pending[j] == after.pending[if j < i then j else j - 1];
      assert forall j :: 0 <= j < |feed.sent| ==> after.sent[j] == feed.sent[j];
    case Emit(text) => assert forall j :: 0 <= j < |feed.sent| ==> after.sent[j] == feed.sent[j];
    case Close =>
  }

  lemma StepKeepsInv(s: System, step: Step)
    requires Inv(s) && Enabled(s, step)
    ensures Inv(After(s, step))
  {
    if step.Next? {
      NextKeepsInv(s);
    } else if step.Writer? {
      if !s.reader.done {
        WriteKeepsStillToCome(s.feed, s.reader, step.w);
      }
      hide StillToCome;
    }
  }

  lemma {:induction false} RunKeepsInv(s: System, steps: seq<Step>)
    requires Inv(s) && IsRun(s, steps)
    ensures Inv(Final(s, steps))
    decreases |steps|
  {
    if steps != [] {
      StepKeepsInv(s, steps[0]);
      RunKeepsInv(After(s, steps[0]), steps[1..]);
    }
  }

  /** However many writers change, announce and emit, settled states included, with lag and reads in
      between, and wherever in whose change the subscriber joined: it is shown a full snapshot first
      and nothing after the first settled state. */
  lemma StreamsOpenFullAndEndSettled(s: System, steps: seq<Step>)
    requires Arrived(s) && IsRun(s, steps)
    ensures var shown := Final(s, steps).shown;
            && (shown != [] ==> shown[0].Full?)
            && OnlyLastSettles(shown)
  {
    ArrivedIsInv(s);
    RunKeepsInv(s, steps);
  }

  /** How far the subscriber can still go. */
  function Ahead(s: System): nat {
    if s.reader.done then 0
    else 1 + (if s.reader.first.Some? then 1 else 0)
           + (if s.reader.position < |s.feed.sent| then |s.feed.sent| - s.reader.position else 0)
  }

  /** The task has settled, all of it was announced, and the subscriber has read the snapshot. */
  predicate Over(s: System) {
    s.reader.ready && s.feed.task.state.Settled() && s.feed.pending == []
  }

  /** Ask for events until there are none. */
  ghost function Drained(s: System): System
    requires Inv(s) && Over(s)
    decreases Ahead(s)
  {
    if s.reader.done then s
    else
      NotBlocked(s);
      NextKeepsInv(s);
      Drained(After(s, Next))
  }

  /** A subscriber of a settled task never waits in vain, and each event brings it nearer the end. */
  lemma NotBlocked(s: System)
    requires Inv(s) && Over(s) && !s.reader.done
    ensures !Blocked(s.feed, s.reader)
    ensures Ahead(After(s, Next)) < Ahead(s) && Over(After(s, Next))
  {
  }

  /** Whatever happened before, once the task has settled the stream can be read to its end, even
      after lag, even when the subscriber joined between the two halves of a change; and what it
      ends with is a settled state. */
  lemma {:induction false} SettledStreamsEnd(s: System)
    requires Inv(s) && Over(s)
    ensures var shown := Drained(s).shown;
            && Inv(Drained(s)) && Drained(s).reader.done && Drained(s).feed == s.feed
            && shown != [] && Settles(shown[|shown| - 1]) && OnlyLastSettles(shown) && s.shown <= shown
    decreases Ahead(s)
  {
    if !s.reader.done {
      NotBlocked(s);
      NextKeepsInv(s);
      SettledStreamsEnd(After(s, Next));
    }
  }

  // ------------------------------------------------------- who learns the final state

  /** What the writers did, the subscriber's own steps left out. */
  function Writes(steps: seq<Step>): seq<Write> {
    if steps == [] then []
    else (if steps[0].Writer? then [steps[0].w] else []) + Writes(steps[1..])
  }

  ghost predicate CanWriteAll(feed: Feed, ws: seq<Write>)
    decreases |ws|
  {
    ws == [] || (CanWrite(feed, ws[0]) && CanWriteAll(Written(feed, ws[0]), ws[1..]))
  }

  ghost function WrittenAll(feed: Feed, ws: seq<Write>): Feed
    requires CanWriteAll(feed, ws)
    decreases |ws|
  {
    if ws == [] then feed else WrittenAll(Written(feed, ws[0]), ws[1..])
  }

  /** Whenever the snapshot is settled, it is `last`. */
  ghost predicate SettlesOnlyAs(feed: Feed, ws: seq<Write>, last: WireTask)
    requires CanWriteAll(feed, ws)
    decreases |ws|
  {
    && (feed.task.state.Settled() ==> feed.task == last)
    && (ws != [] ==> SettlesOnlyAs(Written(feed, ws[0]), ws[1..], last))
  }

  lemma {:induction false} RunWrites(s: System, steps: seq<Step>)
    requires IsRun(s, steps)
    ensures CanWriteAll(s.feed, Writes(steps))
    ensures Final(s, steps).feed == WrittenAll(s.feed, Writes(steps))
    decreases |steps|
  {
    if steps != [] {
      RunWrites(After(s, steps[0]), steps[1..]);
      var ws := Writes(steps[1..]);
      if steps[0].Writer? {
        assert ([steps[0].w] + ws)[1..] == ws;
      } else {
        assert [] + ws == ws;
      }
    }
  }

  /** Everything settled that the subscriber was or can still be shown is `last`. */
  ghost predicate Truthful(s: System, last: WireTask) {
    && TellsOnly(s.feed.task, last)
    && (forall i :: 0 <= i < |s.feed.pending| ==> TellsOnly(s.feed.pending[i], last))
    && (forall i :: s.reader.position <= i < |s.feed.sent| && SettledUpdate(s.feed.sent[i]) ==>
          s.feed.sent[i].task == last)
    && (s.reader.first.Some? ==> TellsOnly(s.reader.first.value, last))
    && (forall i :: 0 <= i < |s.shown| && Settles(s.shown[i]) ==> s.shown[i].task == last)
  }

  lemma StepKeepsTruth(s: System, step: Step, last: WireTask)
    requires s.reader.position <= |s.feed.sent| && Truthful(s, last) && Enabled(s, step)
    requires TellsOnly(After(s, step).feed.task, last)
    ensures Truthful(After(s, step), last)
  {
  }

  lemma {:induction false} RunKeepsTruth(s: System, steps: seq<Step>, last: WireTask)
    requires Inv(s) && Truthful(s, last) && IsRun(s, steps)
    requires CanWriteAll(s.feed, Writes(steps)) && SettlesOnlyAs(s.feed, Writes(steps), last)
    ensures Truthful(Final(s, steps), last)
    decreases |steps|
  {
    hide Inv; hide Truthful; hide Enabled; hide Written; hide CanWrite; hide Advance;
    if steps != [] {
      var after, ws := After(s, steps[0]), Writes(steps[1..]);
      RunWrites(after, steps[1..]);
      if steps[0].Writer? {
        assert ([steps[0].w] + ws)[1..] == ws;
      } else {
        assert [] + ws == ws;
      }
      assert TellsOnly(after.feed.task, last);
      StepKeepsInv(s, steps[0]);
      InvPosition(s);
      StepKeepsTruth(s, steps[0], last);
      RunKeepsTruth(after, steps[1..], last);
    }
  }

  lemma InvPosition(s: System)
    requires Inv(s)
    ensures s.reader.position <= |s.feed.sent|
  {
    hide StillToCome;
  }

  lemma {:induction false} DrainedIsTruthful(s: System, last: WireTask)
    requires Inv(s) && Truthful(s, last) && Over(s)
    ensures Truthful(Drained(s), last)
    decreases Ahead(s)
  {
    if !s.reader.done {
      NotBlocked(s);
      NextKeepsInv(s);
      StepKeepsTruth(s, Next, last);
      DrainedIsTruthful(After(s, Next), last);
    }
  }

  /** A subscriber that reads this run's stream to the end is shown the task's final state last. */
  ghost predicate LearnsTheEnd(s: System, steps: seq<Step>)
    requires Inv(s) && IsRun(s, steps) && Over(Final(s, steps))
  {
    RunKeepsInv(s, steps);
    var t := Final(s, steps);
    var shown := Drained(t).shown;
    shown != [] && shown[|shown| - 1].task == t.feed.task
  }

  lemma TruthfulEnds(s: System, steps: seq<Step>)
    requires Joined(s) && Inv(s) && IsRun(s, steps) && Over(Final(s, steps))
    requires CanWriteAll(s.feed, Writes(steps)) && SettlesOnlyAs(s.feed, Writes(steps), Final(s, steps).feed.task)
    ensures LearnsTheEnd(s, steps)
  {
    var t := Final(s, steps);
    RunKeepsInv(s, steps);
    assert Truthful(s, t.feed.task);
    RunKeepsTruth(s, steps, t.feed.task);
    SettledStreamsEnd(t);
    DrainedIsTruthful(t, t.feed.task);
  }

  function AsSteps(ws: seq<Write>): seq<Step> {
    seq(|ws|, i requires 0 <= i < |ws| => Writer(ws[i]))
  }

  /** The writers' steps alone move the feed alone. */
  lemma {:induction false} WritersAlone(s: System, ws: seq<Write>)
    requires CanWriteAll(s.feed, ws)
    ensures IsRun(s, AsSteps(ws)) && Writes(AsSteps(ws)) == ws
    ensures Final(s, AsSteps(ws)) == s.(feed := WrittenAll(s.feed, ws))
    decreases |ws|
  {
    hide CanWrite; hide Written;
    if ws != [] {
      WritersAlone(s.(feed := Written(s.feed, ws[0])), ws[1..]);
      assert AsSteps(ws)[1..] == AsSteps(ws[1..]) && AsSteps(ws)[0] == Writer(ws[0]);
    }
  }

  lemma RunCons(s: System, step: Step, rest: seq<Step>)
    requires Enabled(s, step) && IsRun(After(s, step), rest)
    ensures IsRun(s, [step] + rest) && Final(s, [step] + rest) == Final(After(s, step), rest)
    ensures Writes([step] + rest) == (if step.Writer? then [step.w] else []) + Writes(rest)
  {
    hide Enabled; hide After;
    assert ([step] + rest)[1..] == rest;
  }

  /** The subscriber reads a settled snapshot now, and asks for no more. */
  lemma ReadsTheSnapshot(s: System)
    requires s.reader == Reader(false, None, s.reader.position, false) && s.shown == [] && s.feed.task.state.Settled()
    ensures Enabled(s, ReadSnapshot) && Enabled(After(s, ReadSnapshot), Next)
    ensures After(After(s, ReadSnapshot), Next)
         == System(s.feed, Reader(true, None, s.reader.position, true), [Full(s.feed.task)])
  {
  }

  lemma MisledNow(s: System, ws: seq<Write>) returns (steps: seq<Step>)
    requires s.reader == Reader(false, None, s.reader.position, false) && s.shown == [] && s.feed.task.state.Settled()
    requires CanWriteAll(s.feed, ws)
    ensures IsRun(s, steps) && Writes(steps) == ws
    ensures Final(s, steps)
         == System(WrittenAll(s.feed, ws), Reader(true, None, s.reader.position, true), [Full(s.feed.task)])
  {
    hide *;
    ReadsTheSnapshot(s);
    var ready := After(s, ReadSnapshot);
    WritersAlone(After(ready, Next), ws);
    RunCons(ready, Next, AsSteps(ws));
    RunCons(s, ReadSnapshot, [Next] + AsSteps(ws));
    steps := [ReadSnapshot] + ([Next] + AsSteps(ws));
    assert [] + ([] + ws) == ws;
  }

  lemma WritesUnfold(feed: Feed, ws: seq<Write>, last: WireTask)
    requires CanWriteAll(feed, ws)
    ensures SettlesOnlyAs(feed, ws, last) <==>
              && TellsOnly(feed.task, last)
              && (ws != [] ==> SettlesOnlyAs(Written(feed, ws[0]), ws[1..], last))
    ensures ws != [] ==> WrittenAll(feed, ws) == WrittenAll(Written(feed, ws[0]), ws[1..])
    ensures ws != [] ==> ws == [ws[0]] + ws[1..]
  {
    hide CanWrite; hide Written;
  }

  lemma WriterStep(s: System, w: Write)
    requires CanWrite(s.feed, w)
    ensures Enabled(s, Writer(w)) && After(s, Writer(w)) == s.(feed := Written(s.feed, w))
  {
  }

  /** A subscriber that reads the snapshot while it is settled, but not for good, is misled. */
  lemma {:induction false} SomeoneIsMisled(s: System, ws: seq<Write>, last: WireTask) returns (steps: seq<Step>)
    requires s.reader == Reader(false, None, s.reader.position, false) && s.shown == []
    requires CanWriteAll(s.feed, ws) && !SettlesOnlyAs(s.feed, ws, last)
    ensures IsRun(s, steps) && Writes(steps) == ws && Final(s, steps).feed == WrittenAll(s.feed, ws)
    ensures var t := Final(s, steps);
            && t.reader.ready && t.reader.done && t.shown != [] && t.shown[|t.shown| - 1].task != last
    decreases |ws|
  {
    WritesUnfold(s.feed, ws, last);
    hide CanWrite; hide Written; hide IsRun; hide Final; hide Writes; hide WrittenAll; hide SettlesOnlyAs; hide Enabled;
    hide After;
    if s.feed.task.state.Settled() && s.feed.task != last {
      steps := MisledNow(s, ws);
    } else {
      WriterStep(s, ws[0]);
      var rest := SomeoneIsMisled(s.(feed := Written(s.feed, ws[0])), ws[1..], last);
      RunCons(s, Writer(ws[0]), rest);
      steps := [Writer(ws[0])] + rest;
    }
  }

  /** The whole of it. Whatever the writers do after a subscriber has joined: it is told the task's
      final state last, however its reads and their lag fall in between, exactly when the snapshot
      was at no moment since then settled otherwise. */
  lemma SubscribersLearnTheEnd(s: System, ws: seq<Write>)
    requires Joined(s) && CanWriteAll(s.feed, ws)
    requires WrittenAll(s.feed, ws).task.state.Settled() && WrittenAll(s.feed, ws).pending == []
    ensures Inv(s)
    ensures (forall steps :: IsRun(s, steps) && Writes(steps) == ws && Over(Final(s, steps)) ==> LearnsTheEnd(s, steps))
         <==> SettlesOnlyAs(s.feed, ws, WrittenAll(s.feed, ws).task)
  {
    hide StillToCome;
    ArrivedIsInv(s);
    hide Joined; hide Inv; hide LearnsTheEnd; hide IsRun; hide Writes;
    var last := WrittenAll(s.feed, ws).task;
    if SettlesOnlyAs(s.feed, ws, last) {
      forall steps | IsRun(s, steps) && Writes(steps) == ws && Over(Final(s, steps))
        ensures LearnsTheEnd(s, steps)
      {
        RunWrites(s, steps);
        TruthfulEnds(s, steps);
      }
    } else {
      var steps := Misled(s, ws, last);
      assert !LearnsTheEnd(s, steps);
    }
  }

  lemma Misled(s: System, ws: seq<Write>, last: WireTask) returns (steps: seq<Step>)
    requires Joined(s) && Inv(s) && CanWriteAll(s.feed, ws) && !SettlesOnlyAs(s.feed, ws, last)
    requires WrittenAll(s.feed, ws).task == last && last.state.Settled() && WrittenAll(s.feed, ws).pending == []
    ensures IsRun(s, steps) && Writes(steps) == ws && Over(Final(s, steps)) && !LearnsTheEnd(s, steps)
  {
    hide Inv;
    steps := SomeoneIsMisled(s, ws, last);
    RunKeepsInv(s, steps);
  }

  /** Nobody changes a task that has settled. */
  ghost predicate LeavesSettledAlone(feed: Feed, ws: seq<Write>)
    requires CanWriteAll(feed, ws)
    decreases |ws|
  {
    ws != [] ==> !(feed.task.state.Settled() && ws[0].Change?) && LeavesSettledAlone(Written(feed, ws[0]), ws[1..])
  }

  /** So it is where cancels only come once the run can be aborted. */
  lemma {:induction false} SettledAloneSettlesOnce(feed: Feed, ws: seq<Write>)
    requires CanWriteAll(feed, ws) && LeavesSettledAlone(feed, ws)
    ensures SettlesOnlyAs(feed, ws, WrittenAll(feed, ws).task)
    ensures feed.task.state.Settled() ==> WrittenAll(feed, ws).task == feed.task
    decreases |ws|
  {
    if ws != [] {
      SettledAloneSettlesOnce(Written(feed, ws[0]), ws[1..]);
    }
  }

  // ---------------------------------------------------------- readers that keep up

  /** `event` shows `update`; output names the task as it is when shown. */
  predicate Shows(event: Event, update: Update) {
    match update
    case Status(task) => event == Changed(task)
    case Chunk(text) => event.Output? && event.text == text
  }

  /** Since it joined at `start`, the subscriber was shown a snapshot and then every update, in order. */
  ghost predicate KeptUp(s: System, start: nat) {
    && start <= s.reader.position <= |s.feed.sent| && s.feed.open
    && |s.shown| == (if s.shown == [] then 0 else 1) + s.reader.position - start
    && forall i :: 1 <= i < |s.shown| ==> Shows(s.shown[i], s.feed.sent[start + i - 1])
  }

  lemma StepKeepsUp(s: System, step: Step, start: nat)
    requires Inv(s) && Enabled(s, step) && KeptUp(s, start) && step != Writer(Close)
    requires |After(s, step).feed.sent| <= start + s.feed.capacity
    ensures KeptUp(After(s, step), start)
  {
    if step.Next? && !s.reader.done {
      assert s.reader.position >= Oldest(s.feed);
    }
  }

  lemma {:induction false} SentGrows(s: System, steps: seq<Step>)
    requires IsRun(s, steps)
    ensures |s.feed.sent| <= |Final(s, steps).feed.sent| && Final(s, steps).feed.capacity == s.feed.capacity
    decreases |steps|
  {
    if steps != [] {
      SentGrows(After(s, steps[0]), steps[1..]);
    }
  }

  lemma {:induction false} RunKeepsUp(s: System, steps: seq<Step>, start: nat)
    requires Inv(s) && IsRun(s, steps) && KeptUp(s, start) && Writer(Close) !in steps
    requires |Final(s, steps).feed.sent| <= start + s.feed.capacity
    ensures KeptUp(Final(s, steps), start)
    decreases |steps|
  {
    if steps != [] {
      SentGrows(After(s, steps[0]), steps[1..]);
      StepKeepsUp(s, steps[0], start);
      StepKeepsInv(s, steps[0]);
      RunKeepsUp(After(s, steps[0]), steps[1..], start);
    }
  }

  /** While the record is kept and no more updates were sent since the subscriber joined than the
      channel holds, the subscriber misses none: snapshot first, then every update in order. */
  lemma NothingIsMissed(s: System, steps: seq<Step>)
    requires Arrived(s) && s.feed.open && IsRun(s, steps) && Writer(Close) !in steps
    requires |Final(s, steps).feed.sent| <= |s.feed.sent| + s.feed.capacity
    ensures KeptUp(Final(s, steps), |s.feed.sent|)
  {
    ArrivedIsInv(s);
    RunKeepsUp(s, steps, |s.feed.sent|);
  }

  // ------------------------------------------------------------ readers that lag behind

  predicate ShownAt(s: System, at: seq<nat>, p: nat)
    requires |at| == |s.shown|
  {
    exists i :: 0 <= i < |at| && at[i] == p && !s.shown[i].Full?
  }

  /** What became of the updates since the subscriber joined at `start`: those it was shown, each once and
      in order, `at` the places they were sent to; and whatever else it has passed is no longer in the
      channel, and was passed with a full snapshot shown in its stead. */
  ghost predicate Accounted(s: System, start: nat, at: seq<nat>) {
    && start <= s.reader.position <= |s.feed.sent| && |at| == |s.shown|
    && (forall i :: 0 <= i < |at| && !s.shown[i].Full? ==>
          start <= at[i] < s.reader.position && Shows(s.shown[i], s.feed.sent[at[i]]))
    && (forall i, j :: 0 <= i < j < |at| && !s.shown[i].Full? && !s.shown[j].Full? ==> at[i] < at[j])
    && (forall i :: 1 <= i < |at| && !s.shown[i - 1].Full? && !s.shown[i].Full? ==> at[i] == at[i - 1] + 1)
    && (at != [] && !s.shown[|at| - 1].Full? ==> s.reader.position == at[|at| - 1] + 1)
    && (forall p :: start <= p < s.reader.position ==> p < Oldest(s.feed) || ShownAt(s, at, p))
  }

  lemma WriteIsAccounted(s: System, w: Write, start: nat, at: seq<nat>)
    requires Accounted(s, start, at) && CanWrite(s.feed, w)
    ensures Accounted(After(s, Writer(w)), start, at)
  {
    var after := After(s, Writer(w));
    assert s.feed.sent <= after.feed.sent && Oldest(s.feed) <= Oldest(after.feed);
    forall p | start <= p < after.reader.position
      ensures p < Oldest(after.feed) || ShownAt(after, at, p)
    {
      assert p < Oldest(s.feed) || ShownAt(s, at, p);
    }
  }

  /** An event either shows the update its reader stands at, and moves it on by one, or shows the task as
      it is; and that passes over nothing the channel still holds. */
  lemma AdvancePassesOver(feed: Feed, reader: Reader)
    requires !Blocked(feed, reader) && reader.position <= |feed.sent|
    ensures var (after, event) := Advance(feed, reader);
            && reader.position <= after.position <= |feed.sent|
            && (event.None? ==> reader.done && after == reader)
            && (event.Some? && event.value.Full? ==>
                  && event.value.task == (if reader.first.Some? then reader.first.value else feed.task)
                  && (after.position == reader.position || after.position <= Oldest(feed)))
            && (event.Some? && !event.value.Full? ==>
                  && reader.position < |feed.sent| && after.position == reader.position + 1
                  && Shows(event.value, feed.sent[reader.position]))
  {
  }

  lemma NextIsAccounted(s: System, start: nat, at: seq<nat>) returns (at': seq<nat>)
    requires Accounted(s, start, at) && !Blocked(s.feed, s.reader)
    ensures Accounted(After(s, Next), start, at')
  {
    var after := After(s, Next);
    AdvancePassesOver(s.feed, s.reader);
    hide Advance; hide Oldest; hide Shows; hide Blocked;
    if after.shown == s.shown {
      return at;
    }
    at' := at + [s.reader.position];
    forall p | start <= p < after.reader.position
      ensures p < Oldest(after.feed) || ShownAt(after, at', p)
    {
      if p < s.reader.position {
        assert p < Oldest(s.feed) || ShownAt(s, at, p);
        assert forall i :: 0 <= i < |at| ==> at'[i] == at[i] && after.shown[i] == s.shown[i];
      } else {
        assert p >= Oldest(after.feed) ==> at'[|at|] == p && !after.shown[|at|].Full?;
      }
    }
  }

  lemma StepIsAccounted(s: System, step: Step, start: nat, at: seq<nat>) returns (at': seq<nat>)
    requires Accounted(s, start, at) && Enabled(s, step)
    ensures Accounted(After(s, step), start, at')
  {
    at' := at;
    match step
    case Writer(w) => WriteIsAccounted(s, w, start, at);
    case Next => at' := NextIsAccounted(s, start, at);
    case ReadSnapshot => assert forall p :: ShownAt(After(s, step), at, p) == ShownAt(s, at, p);
  }

  lemma {:induction false} RunIsAccounted(s: System, steps: seq<Step>, start: nat, at: seq<nat>)
    returns (at': seq<nat>)
    requires Accounted(s, start, at) && IsRun(s, steps)
    ensures Accounted(Final(s, steps), start, at')
    decreases |steps|
  {
    if steps == [] {
      return at;
    }
    hide Accounted; hide Enabled; hide After;
    at' := StepIsAccounted(s, steps[0], start, at);
    at' := RunIsAccounted(After(s, steps[0]), steps[1..], start, at');
  }

  /** However far a subscriber lags behind, nothing the channel still holds is passed over: at any moment
      each update since it joined was shown in its place, or was dropped by the channel, or is to come. */
  lemma OnlyTheDroppedIsMissed(s: System, steps: seq<Step>) returns (at: seq<nat>)
    requires Arrived(s) && IsRun(s, steps)
    ensures Accounted(Final(s, steps), |s.feed.sent|, at)
  {
    at := RunIsAccounted(s, steps, |s.feed.sent|, []);
  }

  /** A rendered event is read back, in either dialect, as what it shows: state and text over. */
  lemma EventsAreReadBack(event: Event, mid: string, dialect: Dialect)
    ensures ParseStreamEvent(Render(event, mid, dialect)) == Some(
              match event
              case Full(task) => TaskEvent(Normalise(task))
              case Changed(task) => StatusEvent(task.state, Normalise(task).statusText)
              case Output(_, text) => ArtifactEvent(Trim(text)))
  {
    match event
    case Full(task) => SendResultRoundTrip(task, mid, dialect);
    case Changed(task) => StatusEventRoundTrip(task, mid, dialect);
    case Output(task, text) => ArtifactEventRoundTrip(task, "stream", text, dialect);
  }

  /** In the older dialect a status event says whether it is the last one: it is marked so exactly if it
      settles the task, and then nothing was shown after it. */
  lemma FinalMarksTheLast(s: System, steps: seq<Step>, i: nat, mid: string)
    requires Arrived(s) && IsRun(s, steps)
    requires i < |Final(s, steps).shown| && Final(s, steps).shown[i].Changed?
    ensures var shown := Final(s, steps).shown;
            && Get(Render(shown[i], mid, Legacy), KFinal) == Some(Bool(Settles(shown[i])))
            && (Settles(shown[i]) ==> i == |shown| - 1)
  {
    StreamsOpenFullAndEndSettled(s, steps);
    hide StatusJson;
  }
}
