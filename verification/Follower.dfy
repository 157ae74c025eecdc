/** The client's side of a stream: a task put together from the events of the server's. */
module Followers {
  import opened Tasks
  import opened Text
  import opened Wire
  import Streams = TaskStreams

  datatype Progress = Progress(
    taskId: Option<string>,
    contextId: string,
    state: Option<TaskState>,
    statusText: Option<string>,
    artifactText: string,
    message: Option<string>)

  const NOTHING_YET := Progress(None, "", None, None, "", None)

  function ArtifactTexts(artifacts: seq<Artifact>): seq<string> {
    seq(|artifacts|, i requires 0 <= i < |artifacts| => artifacts[i].text)
  }

  function Grown(have: string, text: string): string {
    if have != [] && text != [] then have + "\n" + text else have + text
  }

  /** The progress after one more event. */
  function Applied(p: Progress, event: StreamEvent): Progress {
    match event
    case MessageEvent(text) => p.(message := Some(text))
    case TaskEvent(task) =>
      p.(taskId := Some(task.id), contextId := task.contextId, state := Some(task.state),
         artifactText := if task.artifacts != [] then Join(ArtifactTexts(task.artifacts), "\n\n") else p.artifactText,
         statusText := if task.statusText.Some? then task.statusText else p.statusText)
    case StatusEvent(state, text) =>
      p.(state := Some(state), statusText := if text.Some? then text else p.statusText)
    case ArtifactEvent(chunk) => p.(artifactText := Grown(p.artifactText, chunk))
  }

  /** The stream has said all it will. */
  predicate Finished(p: Progress) {
    p.message.Some? || (p.state.Some? && p.state.value.Settled())
  }

  function IntoTask(p: Progress): WireTask {
    WireTask(if p.taskId.Some? then p.taskId.value else "",
             p.contextId,
             if p.state.Some? then p.state.value else Unknown,
             p.statusText,
             None,
             if p.artifactText == [] then [] else [Artifact("stream", p.artifactText)])
  }

  class StreamFollower {
    var taskId: Option<string>
    var contextId: string
    var state: Option<TaskState>
    var statusText: Option<string>
    var artifactText: string
    var message: Option<string>

    function Value(): Progress
      reads this
    {
      Progress(taskId, contextId, state, statusText, artifactText, message)
    }

    constructor ()
      ensures Value() == NOTHING_YET
    {
      taskId, contextId, state, statusText, artifactText, message := None, "", None, None, "", None;
    }

    /** Apply one event; text worth showing now. */
    method Apply(event: StreamEvent) returns (shown: Option<string>)
      modifies this
      ensures Value() == Applied(old(Value()), event)
      ensures shown == match event
                       case MessageEvent(text) => Some(text)
                       case TaskEvent(_) => None
                       case StatusEvent(_, text) => text
                       case ArtifactEvent(chunk) => NonEmpty(chunk)
    {
      match event {
        case MessageEvent(text) =>
          message := Some(text);
          shown := Some(text);
        case TaskEvent(task) =>
          taskId, contextId, state := Some(task.id), task.contextId, Some(task.state);
          var texts := ArtifactTexts(task.artifacts);
          if texts != [] {
            artifactText := Join(texts, "\n\n");
          }
          if task.statusText.Some? {
            statusText := task.statusText;
          }
          shown := None;
        case StatusEvent(newState, text) =>
          state := Some(newState);
          if text.Some? {
            statusText := text;
          }
          shown := text;
        case ArtifactEvent(chunk) =>
          if artifactText != [] && chunk != [] {
            artifactText := artifactText + "\n";
          }
          artifactText := artifactText + chunk;
          shown := if chunk == [] then None else Some(chunk);
      }
    }
  }

  /** What a follower makes of the events a server showed, rendered and read back. */
  function Followed(shown: seq<Streams.Event>, mid: string, dialect: Dialect): Progress {
    if shown == [] then NOTHING_YET
    else
      var before := Followed(shown[..|shown| - 1], mid, dialect);
      var event := ParseStreamEvent(Streams.Render(shown[|shown| - 1], mid, dialect));
      if event.Some? then Applied(before, event.value) else before
  }

  /** The state of the latest event that has one. */
  function LatestState(shown: seq<Streams.Event>): Option<TaskState> {
    if shown == [] then None
    else if shown[|shown| - 1].Output? then LatestState(shown[..|shown| - 1])
    else Some(shown[|shown| - 1].task.state)
  }

  /** The latest status text that says something. */
  function LatestText(shown: seq<Streams.Event>): Option<string> {
    if shown == [] then None
    else
      var last := shown[|shown| - 1];
      if last.Output? || NormalText(last.task.statusText).None? then LatestText(shown[..|shown| - 1])
      else NormalText(last.task.statusText)
  }

  /** The task of the latest full snapshot. */
  function LatestFull(shown: seq<Streams.Event>): Option<WireTask> {
    if shown == [] then None
    else if shown[|shown| - 1].Full? then Some(shown[|shown| - 1].task)
    else LatestFull(shown[..|shown| - 1])
  }

  /** Across the wire, in either dialect, the follower knows the latest state, the latest status text and
      whose task it is, and gets no message. */
  lemma {:induction false} FollowerKnowsTheState(shown: seq<Streams.Event>, mid: string, dialect: Dialect)
    ensures var p := Followed(shown, mid, dialect);
            && p.state == LatestState(shown) && p.message.None? && p.statusText == LatestText(shown)
            && (LatestFull(shown).None? ==> p.taskId == None && p.contextId == [])
            && (LatestFull(shown).Some? ==>
                  p.taskId == Some(LatestFull(shown).value.id) && p.contextId == LatestFull(shown).value.contextId)
  {
    if shown != [] {
      var last := shown[|shown| - 1];
      FollowerKnowsTheState(shown[..|shown| - 1], mid, dialect);
      Streams.EventsAreReadBack(last, mid, dialect);
      hide ParseStreamEvent; hide Streams.Render; hide NormalText; hide NormalArtifacts; hide Trim; hide Join;
      hide ArtifactTexts;
    }
  }

  lemma {:induction false} UnsettledSoFar(shown: seq<Streams.Event>)
    requires forall i :: 0 <= i < |shown| ==> !Streams.Settles(shown[i])
    ensures LatestState(shown).Some? ==> !LatestState(shown).value.Settled()
  {
    if shown != [] {
      UnsettledSoFar(shown[..|shown| - 1]);
    }
  }

  /** The follower of a stream goes on until its last event and no further: it is finished
      exactly when the event that settles the task has been applied, and then has its state. */
  lemma FollowerEndsWithTheStream(shown: seq<Streams.Event>, k: nat, mid: string, dialect: Dialect)
    requires Streams.OnlyLastSettles(shown) && k <= |shown|
    ensures Finished(Followed(shown[..k], mid, dialect)) <==> k == |shown| && k > 0 && Streams.Settles(shown[k - 1])
    ensures k > 0 && Streams.Settles(shown[k - 1]) ==>
              IntoTask(Followed(shown[..k], mid, dialect)).state == shown[k - 1].task.state
  {
    hide LatestText; hide LatestFull; hide Followed;
    FollowerKnowsTheState(shown[..k], mid, dialect);
    if k > 0 && Streams.Settles(shown[k - 1]) {
      assert shown[..k][k - 1] == shown[k - 1];
    } else {
      UnsettledSoFar(shown[..k]);
    }
  }

  /** What the task the client returns says, if the last event says it: its status text; and with a
      full snapshot its ids, and its artifacts in one. */
  ghost predicate ShowsWhatItSaw(task: WireTask, last: Streams.Event) {
    var seen := Normalise(last.task);
    && task.state == seen.state && task.timestamp == None
    && (!last.Output? && seen.statusText.Some? ==> task.statusText == seen.statusText)
    && (last.Full? ==> task.id == seen.id && task.contextId == seen.contextId)
    && (last.Full? && seen.artifacts != [] && Join(ArtifactTexts(seen.artifacts), "\n\n") != [] ==>
          task.artifacts == [Artifact("stream", Join(ArtifactTexts(seen.artifacts), "\n\n"))])
  }

  lemma LastEventShows(shown: seq<Streams.Event>, mid: string, dialect: Dialect)
    requires shown != [] && !shown[|shown| - 1].Output?
    ensures ShowsWhatItSaw(IntoTask(Followed(shown, mid, dialect)), shown[|shown| - 1])
  {
    var last := shown[|shown| - 1];
    Streams.EventsAreReadBack(last, mid, dialect);
    NormaliseKeeps(last.task);
    hide ParseStreamEvent; hide Streams.Render; hide Normalise; hide Trim; hide Join; hide ArtifactTexts;
  }

  lemma NormaliseKeeps(task: WireTask)
    ensures Normalise(task).id == task.id && Normalise(task).contextId == task.contextId
      && Normalise(task).state == task.state
  {
  }

  /** The output shown: that of the latest snapshot that has any, a blank line between its artifacts, and the
      visible output since, trimmed. */
  function Outputs(shown: seq<Streams.Event>): seq<string> {
    if shown == [] then []
    else
      var last, before := shown[|shown| - 1], Outputs(shown[..|shown| - 1]);
      if last.Output? then before + if Trim(last.text) != [] then [Trim(last.text)] else []
      else if last.Full? && NormalArtifacts(last.task.artifacts) != []
      then [Join(ArtifactTexts(NormalArtifacts(last.task.artifacts)), "\n\n")]
      else before
  }

  lemma {:induction false} JoinGrows(parts: seq<string>, last: string, separator: string)
    ensures Join(parts + [last], separator) == if parts == [] then last else Join(parts, separator) + separator + last
  {
    if |parts| > 1 {
      assert (parts + [last])[1..] == parts[1..] + [last];
      JoinGrows(parts[1..], last, separator);
      var rest := Join(parts[1..], separator);
      assert parts[0] + separator + (rest + separator + last) == parts[0] + separator + rest + separator + last;
    }
  }

  lemma {:induction false} JoinIsSomething(parts: seq<string>, separator: string)
    requires forall i :: 0 <= i < |parts| ==> parts[i] != []
    ensures Join(parts, separator) == [] <==> parts == []
  {
  }

  lemma JoinOfOne(part: string)
    ensures Join([part], "\n") == part
  {
  }

  lemma SnapshotOutput(artifacts: seq<Artifact>)
    requires NormalArtifacts(artifacts) != []
    ensures Join(ArtifactTexts(NormalArtifacts(artifacts)), "\n\n") != []
  {
    NormalArtifactsTidy(artifacts);
    var texts := ArtifactTexts(NormalArtifacts(artifacts));
    forall i | 0 <= i < |texts|
      ensures texts[i] != []
    {
      assert NormalArtifacts(artifacts)[i] in NormalArtifacts(artifacts);
    }
    JoinIsSomething(texts, "\n\n");
  }

  /** The client returns the output it was shown, a line each. */
  lemma {:induction false} FollowerGathersTheOutput(shown: seq<Streams.Event>, mid: string, dialect: Dialect)
    ensures Followed(shown, mid, dialect).artifactText == Join(Outputs(shown), "\n")
    ensures forall i :: 0 <= i < |Outputs(shown)| ==> Outputs(shown)[i] != []
  {
    if shown != [] {
      var last, before := shown[|shown| - 1], shown[..|shown| - 1];
      FollowerGathersTheOutput(before, mid, dialect);
      Streams.EventsAreReadBack(last, mid, dialect);
      assert Outputs(before) + [] == Outputs(before);
      JoinIsSomething(Outputs(before), "\n");
      if last.Output? {
        JoinGrows(Outputs(before), Trim(last.text), "\n");
      } else if last.Full? && NormalArtifacts(last.task.artifacts) != [] {
        SnapshotOutput(last.task.artifacts);
        JoinOfOne(Join(ArtifactTexts(NormalArtifacts(last.task.artifacts)), "\n\n"));
      }
      hide ParseStreamEvent; hide Streams.Render; hide NormalArtifacts; hide NormalText; hide Trim; hide ArtifactTexts;
      hide Join;
    }
  }

  /** Server to client: whatever the writers, the reads and their lag do on the server's side, a
      client that reads the stream of a settled task to its end is finished exactly then, with the
      state and texts the last event showed; and these are the task's final ones whenever the
      snapshot was not settled otherwise since the subscriber joined. */
  lemma ClientsLearnTheEnd(s: Streams.System, steps: seq<Streams.Step>, mid: string, dialect: Dialect)
    requires Streams.Arrived(s) && Streams.IsRun(s, steps) && Streams.Over(Streams.Final(s, steps))
    ensures Streams.Inv(Streams.Final(s, steps)) && Streams.CanWriteAll(s.feed, Streams.Writes(steps))
    ensures var t := Streams.Final(s, steps);
            var shown := Streams.Drained(t).shown;
            var task := IntoTask(Followed(shown, mid, dialect));
            && shown != [] && !shown[|shown| - 1].Output?
            && Finished(Followed(shown, mid, dialect))
            && (forall k :: 0 <= k < |shown| ==> !Finished(Followed(shown[..k], mid, dialect)))
            && ShowsWhatItSaw(task, shown[|shown| - 1])
            && (Streams.Joined(s) && Streams.SettlesOnlyAs(s.feed, Streams.Writes(steps), t.feed.task) ==>
                  shown[|shown| - 1].task == t.feed.task)
  {
    hide *;
    Streams.ArrivedIsInv(s);
    Streams.RunKeepsInv(s, steps);
    Streams.RunWrites(s, steps);
    var t := Streams.Final(s, steps);
    Streams.SettledStreamsEnd(t);
    var shown := Streams.Drained(t).shown;
    if Streams.Joined(s) && Streams.SettlesOnlyAs(s.feed, Streams.Writes(steps), t.feed.task) {
      Streams.TruthfulEnds(s, steps);
      LearnedIs(s, steps);
    }
    EndsFinished(shown, mid, dialect);
  }

  lemma LearnedIs(s: Streams.System, steps: seq<Streams.Step>)
    requires Streams.Inv(s) && Streams.IsRun(s, steps) && Streams.Over(Streams.Final(s, steps))
    requires Streams.LearnsTheEnd(s, steps)
    ensures Streams.Inv(Streams.Final(s, steps))
    ensures var t := Streams.Final(s, steps);
            var shown := Streams.Drained(t).shown;
            shown != [] && shown[|shown| - 1].task == t.feed.task
  {
    hide Streams.Inv; hide Streams.Drained;
    Streams.RunKeepsInv(s, steps);
  }

  lemma EndsFinished(shown: seq<Streams.Event>, mid: string, dialect: Dialect)
    requires shown != [] && Streams.OnlyLastSettles(shown) && Streams.Settles(shown[|shown| - 1])
    ensures !shown[|shown| - 1].Output? && Finished(Followed(shown, mid, dialect))
    ensures forall k :: 0 <= k < |shown| ==> !Finished(Followed(shown[..k], mid, dialect))
    ensures ShowsWhatItSaw(IntoTask(Followed(shown, mid, dialect)), shown[|shown| - 1])
  {
    hide Followed; hide Finished; hide ShowsWhatItSaw;
    assert shown[..|shown|] == shown;
    FollowerEndsWithTheStream(shown, |shown|, mid, dialect);
    forall k | 0 <= k < |shown|
      ensures !Finished(Followed(shown[..k], mid, dialect))
    {
      FollowerEndsWithTheStream(shown, k, mid, dialect);
    }
    LastEventShows(shown, mid, dialect);
  }

  /** A message on the stream, whatever came before, is the answer, and the stream is over. */
  lemma MessageIsTheAnswer(p: Progress, text: string, mid: string, dialect: Dialect)
    ensures var event := ParseStreamEvent(AnswerJson(text, mid, dialect));
            event.Some? && Finished(Applied(p, event.value)) && Applied(p, event.value).message == Some(Trim(text))
  {
    AnswerRoundTrip(text, mid, dialect);
  }
}
