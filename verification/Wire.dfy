/** The A2A wire vocabulary in its two dialects: what is rendered, and what is read back. */
module Wire {
  import opened Tasks
  import opened Text

  /** Object keys: the ones the protocol uses, and any other. */
  datatype Key =
    | KId | KContextId | KStatus | KArtifacts | KKind | KState | KMessage | KTimestamp | KArtifactId | KName
    | KParts | KText | KMessageId | KRole | KTask | KStatusUpdate | KArtifactUpdate | KTaskId | KArtifact
    | KAppend | KFinal | Other(name: string)

  datatype Json =
    | Null | Bool(b: bool) | Number(n: int) | Str(s: string) | Arr(items: seq<Json>) | Obj(fields: map<Key, Json>)

  function Get(v: Json, key: Key): Option<Json> {
    if v.Obj? && key in v.fields then Some(v.fields[key]) else None
  }

  function AsStr(v: Option<Json>): Option<string> {
    if v.Some? && v.value.Str? then Some(v.value.s) else None
  }

  function GetStr(v: Json, key: Key): Option<string> {
    AsStr(Get(v, key))
  }

  datatype Dialect = V1 | Legacy

  // -------------------------------------------------------------------- states

  datatype TaskState =
    | Submitted | Working | Completed | Failed | Canceled | InputRequired | Rejected | AuthRequired | Unknown
  {
    predicate Terminal() {
      Completed? || Failed? || Canceled? || Rejected?
    }

    predicate Interrupted() {
      InputRequired? || AuthRequired?
    }

    /** The task will not change again without the caller. */
    predicate Settled(): (settled: bool)
      ensures settled <==> !(Submitted? || Working? || Unknown?)
    {
      Terminal() || Interrupted()
    }
  }

  const PREFIX := "TASK_STATE_"

  function StripPrefix(s: string): string {
    if PREFIX <= s then StripPrefix(s[|PREFIX|..]) else s
  }

  function Dashed(c: char): char {
    if c == '_' then '-' else c
  }

  function CanonicalState(raw: string): string {
    MapText(Lowercase(StripPrefix(Trim(raw))), Dashed)
  }

  function StateNamed(name: string): TaskState {
    if name == "submitted" then Submitted
    else if name == "working" then Working
    else if name == "completed" then Completed
    else if name == "failed" then Failed
    else if name == "canceled" || name == "cancelled" then Canceled
    else if name == "input-required" then InputRequired
    else if name == "rejected" then Rejected
    else if name == "auth-required" then AuthRequired
    else Unknown
  }

  /** Either dialect's spelling. */
  function ParseState(raw: string): TaskState {
    StateNamed(CanonicalState(raw))
  }

  function V1Name(state: TaskState): string {
    match state
    case Submitted => "SUBMITTED"
    case Working => "WORKING"
    case Completed => "COMPLETED"
    case Failed => "FAILED"
    case Canceled => "CANCELED"
    case InputRequired => "INPUT_REQUIRED"
    case Rejected => "REJECTED"
    case AuthRequired => "AUTH_REQUIRED"
    case Unknown => "UNSPECIFIED"
  }

  function LegacyName(state: TaskState): string {
    match state
    case Submitted => "submitted"
    case Working => "working"
    case Completed => "completed"
    case Failed => "failed"
    case Canceled => "canceled"
    case InputRequired => "input-required"
    case Rejected => "rejected"
    case AuthRequired => "auth-required"
    case Unknown => "unknown"
  }

  function RenderState(state: TaskState, dialect: Dialect): string {
    if dialect.V1? then PREFIX + V1Name(state) else LegacyName(state)
  }

  lemma CanonicalOfPlain(raw: string, name: string)
    requires Trimmed(raw) && !(PREFIX <= raw) && |raw| == |name|
    requires forall i :: 0 <= i < |raw| ==> Dashed(ToLowerAscii(raw[i])) == name[i]
    ensures CanonicalState(raw) == name
  {
    TrimIsIdempotent(raw);
  }

  lemma CanonicalOfPrefixed(rest: string, name: string)
    requires rest != [] && !IsWhitespace(rest[|rest| - 1]) && !(PREFIX <= rest) && |rest| == |name|
    requires forall i :: 0 <= i < |rest| ==> Dashed(ToLowerAscii(rest[i])) == name[i]
    ensures CanonicalState(PREFIX + rest) == name
  {
    var raw := PREFIX + rest;
    assert raw[0] == 'T' && raw[|raw| - 1] == rest[|rest| - 1];
    TrimIsIdempotent(raw);
    assert raw[|PREFIX|..] == rest;
    assert StripPrefix(raw) == StripPrefix(rest) == rest;
  }

  /** What a state is called once prefix, case and separators are ignored. */
  function PlainName(state: TaskState): string {
    if state.Unknown? then "unspecified" else LegacyName(state)
  }

  lemma PlainNamesAreKnown(state: TaskState)
    ensures StateNamed(PlainName(state)) == state && StateNamed(LegacyName(state)) == state
  {
  }

  predicate Spells(raw: string, name: string) {
    && raw != [] && |raw| == |name| && 'A' <= raw[0] <= 'z' && raw[0] != 'T' && 'A' <= raw[|raw| - 1] <= 'z'
    && forall i :: 0 <= i < |raw| ==> Dashed(ToLowerAscii(raw[i])) == name[i]
  }

  lemma FirstV1NamesSpellOut()
    ensures Spells("SUBMITTED", "submitted") && Spells("WORKING", "working") && Spells("COMPLETED", "completed")
    ensures Spells("FAILED", "failed") && Spells("CANCELED", "canceled")
  {
  }

  lemma OtherV1NamesSpellOut()
    ensures Spells("INPUT_REQUIRED", "input-required") && Spells("REJECTED", "rejected")
    ensures Spells("AUTH_REQUIRED", "auth-required") && Spells("UNSPECIFIED", "unspecified")
  {
  }

  lemma V1NamesSpellOut(state: TaskState)
    ensures Spells(V1Name(state), PlainName(state))
  {
    hide StateNamed;
    hide Spells;
    FirstV1NamesSpellOut();
    OtherV1NamesSpellOut();
  }

  lemma FirstLegacyNamesSpellOut()
    ensures Spells("submitted", "submitted") && Spells("working", "working") && Spells("completed", "completed")
    ensures Spells("failed", "failed") && Spells("canceled", "canceled")
  {
  }

  lemma OtherLegacyNamesSpellOut()
    ensures Spells("input-required", "input-required") && Spells("rejected", "rejected")
    ensures Spells("auth-required", "auth-required") && Spells("unknown", "unknown")
  {
  }

  lemma LegacyNamesSpellOut(state: TaskState)
    ensures Spells(LegacyName(state), LegacyName(state))
  {
    hide Spells;
    FirstLegacyNamesSpellOut();
    OtherLegacyNamesSpellOut();
  }

  /** Every state survives being rendered and read back, in either dialect. */
  lemma StateRoundTrip(state: TaskState, dialect: Dialect)
    ensures ParseState(RenderState(state, dialect)) == state
  {
    PlainNamesAreKnown(state);
    V1NamesSpellOut(state);
    LegacyNamesSpellOut(state);
    hide StateNamed; hide V1Name; hide LegacyName; hide PlainName; hide CanonicalState;
    if dialect.V1? {
      CanonicalOfPrefixed(V1Name(state), PlainName(state));
    } else {
      CanonicalOfPlain(LegacyName(state), LegacyName(state));
    }
  }

  /** And nothing else is read as that state, but for the other spelling of a cancellation. */
  lemma StatesAreNamed(raw: string, state: TaskState)
    requires state != Unknown
    ensures ParseState(raw) == state <==>
              CanonicalState(raw) == LegacyName(state) || (state == Canceled && CanonicalState(raw) == "cancelled")
  {
    hide CanonicalState;
  }

  // --------------------------------------------------------------------- tasks

  datatype Artifact = Artifact(id: string, text: string)

  datatype WireTask = WireTask(
    id: string,
    contextId: string,
    state: TaskState,
    statusText: Option<string>,
    timestamp: Option<string>,
    artifacts: seq<Artifact>)

  function TextPart(text: string, dialect: Dialect): Json {
    if dialect.V1? then Obj(map[KText := Str(text)]) else Obj(map[KKind := Str("text"), KText := Str(text)])
  }

  /** A message; its id is drawn elsewhere and never read back. */
  function MessageJson(text: string, user: bool, messageId: string, dialect: Dialect): Json {
    if dialect.V1? then
      Obj(map[KMessageId := Str(messageId), KRole := Str(if user then "ROLE_USER" else "ROLE_AGENT"),
              KParts := Arr([TextPart(text, dialect)])])
    else
      Obj(map[KKind := Str("message"), KMessageId := Str(messageId), KRole := Str(if user then "user" else "agent"),
              KParts := Arr([TextPart(text, dialect)])])
  }

  function ArtifactJson(a: Artifact, dialect: Dialect): Json {
    Obj(map[KArtifactId := Str(a.id), KName := Str("result"), KParts := Arr([TextPart(a.text, dialect)])])
  }

  function ArtifactsJson(artifacts: seq<Artifact>, dialect: Dialect): seq<Json> {
    seq(|artifacts|, i requires 0 <= i < |artifacts| => ArtifactJson(artifacts[i], dialect))
  }

  function StatusJson(task: WireTask, messageId: string, dialect: Dialect): Json {
    var bare := map[KState := Str(RenderState(task.state, dialect))];
    var told := if task.statusText.Some?
                then bare[KMessage := MessageJson(task.statusText.value, false, messageId, dialect)] else bare;
    Obj(if task.timestamp.Some? then told[KTimestamp := Str(task.timestamp.value)] else told)
  }

  function TaskJson(task: WireTask, messageId: string, dialect: Dialect): Json {
    var fields := map[KId := Str(task.id), KContextId := Str(task.contextId),
                      KStatus := StatusJson(task, messageId, dialect),
                      KArtifacts := Arr(ArtifactsJson(task.artifacts, dialect))];
    Obj(if dialect.Legacy? then fields[KKind := Str("task")] else fields)
  }

  /** The visible texts of a list of parts. */
  function PartTexts(parts: seq<Json>): seq<string> {
    if parts == [] then []
    else
      var text := GetStr(parts[0], KText);
      (if text.Some? && Trim(text.value) != [] then [Trim(text.value)] else []) + PartTexts(parts[1..])
  }

  function PartsText(parts: Option<Json>): string {
    if parts.Some? && parts.value.Arr? then Join(PartTexts(parts.value.items), "\n") else ""
  }

  function NonEmpty(text: string): Option<string> {
    if text == [] then None else Some(text)
  }

  function ParseArtifact(v: Json): Artifact {
    var id := GetStr(v, KArtifactId);
    Artifact(if id.Some? then id.value else "artifact", PartsText(Get(v, KParts)))
  }

  function ParseArtifacts(items: seq<Json>): seq<Artifact> {
    if items == [] then []
    else
      var first := ParseArtifact(items[0]);
      (if first.text != [] then [first] else []) + ParseArtifacts(items[1..])
  }

  function StateOf(status: Option<Json>): TaskState {
    var raw := if status.Some? then GetStr(status.value, KState) else None;
    if raw.Some? then ParseState(raw.value) else Unknown
  }

  function TextOf(status: Option<Json>): Option<string> {
    var message := if status.Some? then Get(status.value, KMessage) else None;
    if message.Some? then NonEmpty(PartsText(Get(message.value, KParts))) else None
  }

  function ParseTask(v: Json): Option<WireTask> {
    var id := GetStr(v, KId);
    if id.None? then None
    else
      var status, artifacts, context := Get(v, KStatus), Get(v, KArtifacts), GetStr(v, KContextId);
      Some(WireTask(
        id.value,
        if context.Some? then context.value else "",
        StateOf(status),
        TextOf(status),
        if status.Some? then GetStr(status.value, KTimestamp) else None,
        if artifacts.Some? && artifacts.value.Arr? then ParseArtifacts(artifacts.value.items) else []))
  }

  // ------------------------------------------------------------- normalisation

  function NormalText(text: Option<string>): Option<string> {
    if text.Some? then NonEmpty(Trim(text.value)) else None
  }

  function NormalArtifacts(artifacts: seq<Artifact>): seq<Artifact> {
    if artifacts == [] then []
    else
      var text := Trim(artifacts[0].text);
      (if text != [] then [Artifact(artifacts[0].id, text)] else []) + NormalArtifacts(artifacts[1..])
  }

  /** What survives the wire: texts trimmed, blank ones dropped. */
  function Normalise(task: WireTask): WireTask {
    task.(statusText := NormalText(task.statusText), artifacts := NormalArtifacts(task.artifacts))
  }

  predicate Tidy(task: WireTask) {
    && (task.statusText.Some? ==> task.statusText.value != [] && Trimmed(task.statusText.value))
    && forall a :: a in task.artifacts ==> a.text != [] && Trimmed(a.text)
  }

  lemma {:induction false} NormalArtifactsTidy(artifacts: seq<Artifact>)
    ensures forall a :: a in NormalArtifacts(artifacts) ==> a.text != [] && Trimmed(a.text)
    ensures (forall a :: a in artifacts ==> a.text != [] && Trimmed(a.text)) ==> NormalArtifacts(artifacts) == artifacts
  {
    if artifacts != [] {
      NormalArtifactsTidy(artifacts[1..]);
      TrimTrims(artifacts[0].text);
      TrimIsIdempotent(artifacts[0].text);
      assert artifacts == [artifacts[0]] + artifacts[1..];
    }
  }

  /** Normalising yields a tidy task, leaves tidy ones alone, and so twice is once. */
  lemma NormaliseIsIdempotent(task: WireTask)
    ensures Tidy(Normalise(task))
    ensures Tidy(task) ==> Normalise(task) == task
    ensures Normalise(Normalise(task)) == Normalise(task)
  {
    NormalArtifactsTidy(task.artifacts);
    NormalArtifactsTidy(NormalArtifacts(task.artifacts));
    if task.statusText.Some? {
      TrimTrims(task.statusText.value);
      TrimIsIdempotent(task.statusText.value);
      TrimIsIdempotent(Trim(task.statusText.value));
    }
  }

  // ---------------------------------------------------------------- round trips

  lemma PartsTextOfOne(text: string, dialect: Dialect)
    ensures PartsText(Some(Arr([TextPart(text, dialect)]))) == Trim(text)
  {
    var part := TextPart(text, dialect);
    assert [part][1..] == [];
    assert PartTexts([part]) == (if Trim(text) != [] then [Trim(text)] else []) + PartTexts([]);
  }

  /** A text sent in several parts is read as their texts, trimmed, without the blank ones, a line each;
      parts that carry no text in between do not show. */
  lemma {:induction false} PartsTextOfMany(texts: seq<Option<string>>, dialect: Dialect)
    ensures PartsText(Some(Arr(PartsOf(texts, dialect)))) == Join(Visible(texts), "\n")
  {
    PartTextsAre(texts, dialect);
  }

  lemma {:induction false} PartTextsAre(texts: seq<Option<string>>, dialect: Dialect)
    ensures PartTexts(PartsOf(texts, dialect)) == Visible(texts)
  {
    if texts != [] {
      PartTextsAre(texts[1..], dialect);
      var parts := PartsOf(texts, dialect);
      assert parts[1..] == PartsOf(texts[1..], dialect);
      assert GetStr(parts[0], KText) == texts[0];
    }
  }

  /** One part for each text, and one of a file where there is none. */
  function PartsOf(texts: seq<Option<string>>, dialect: Dialect): seq<Json> {
    seq(|texts|, i requires 0 <= i < |texts| =>
      if texts[i].Some? then TextPart(texts[i].value, dialect) else Obj(map[KKind := Str("file")]))
  }

  function Visible(texts: seq<Option<string>>): seq<string> {
    if texts == [] then []
    else
      (if texts[0].Some? && Trim(texts[0].value) != [] then [Trim(texts[0].value)] else []) + Visible(texts[1..])
  }

  lemma {:induction false} ArtifactsRoundTrip(artifacts: seq<Artifact>, dialect: Dialect)
    ensures ParseArtifacts(ArtifactsJson(artifacts, dialect)) == NormalArtifacts(artifacts)
  {
    if artifacts != [] {
      assert ArtifactsJson(artifacts, dialect)[1..] == ArtifactsJson(artifacts[1..], dialect);
      ArtifactsRoundTrip(artifacts[1..], dialect);
      PartsTextOfOne(artifacts[0].text, dialect);
    }
  }

  lemma StatusRoundTrip(task: WireTask, messageId: string, dialect: Dialect)
    ensures var status := Some(StatusJson(task, messageId, dialect));
            && StateOf(status) == task.state
            && TextOf(status) == NormalText(task.statusText)
            && GetStr(status.value, KTimestamp) == task.timestamp
  {
    hide ParseState;
    hide RenderState;
    hide PartsText;
    StateRoundTrip(task.state, dialect);
    if task.statusText.Some? {
      PartsTextOfOne(task.statusText.value, dialect);
    }
  }

  /** Reading back a rendered task returns it, normalised. */
  lemma TaskRoundTrip(task: WireTask, messageId: string, dialect: Dialect)
    ensures ParseTask(TaskJson(task, messageId, dialect)) == Some(Normalise(task))
  {
    StatusRoundTrip(task, messageId, dialect);
    ArtifactsRoundTrip(task.artifacts, dialect);
    hide StatusJson; hide ArtifactsJson; hide ParseArtifacts; hide NormalArtifacts; hide StateOf; hide TextOf;
    hide NormalText;
    var json := TaskJson(task, messageId, dialect);
    assert Get(json, KStatus) == Some(StatusJson(task, messageId, dialect));
    assert Get(json, KArtifacts) == Some(Arr(ArtifactsJson(task.artifacts, dialect)));
    assert GetStr(json, KId) == Some(task.id) && GetStr(json, KContextId) == Some(task.contextId);
  }

  lemma {:induction false} PartTextsAreTidy(parts: seq<Json>)
    ensures forall t :: t in PartTexts(parts) ==> t != [] && Trimmed(t)
  {
    if parts != [] {
      PartTextsAreTidy(parts[1..]);
      var text := GetStr(parts[0], KText);
      if text.Some? {
        TrimTrims(text.value);
      }
    }
  }

  lemma PartsTextIsTidy(parts: Option<Json>)
    ensures Trimmed(PartsText(parts))
  {
    if parts.Some? && parts.value.Arr? {
      PartTextsAreTidy(parts.value.items);
      JoinIsTrimmed(PartTexts(parts.value.items));
    }
  }

  lemma {:induction false} ParsedArtifactsAreTidy(items: seq<Json>)
    ensures forall a :: a in ParseArtifacts(items) ==> a.text != [] && Trimmed(a.text)
  {
    if items != [] {
      ParsedArtifactsAreTidy(items[1..]);
      PartsTextIsTidy(Get(items[0], KParts));
    }
  }

  /** Whatever a peer or a store holds, what is read from it has nothing left to normalise. */
  lemma ParsedIsTidy(v: Json)
    requires ParseTask(v).Some?
    ensures Tidy(ParseTask(v).value)
  {
    hide PartsText;
    hide ParseArtifacts;
    var status, artifacts := Get(v, KStatus), Get(v, KArtifacts);
    if status.Some? && Get(status.value, KMessage).Some? {
      PartsTextIsTidy(Get(Get(status.value, KMessage).value, KParts));
    }
    if artifacts.Some? && artifacts.value.Arr? {
      ParsedArtifactsAreTidy(artifacts.value.items);
    }
  }

  // ------------------------------------------------------- responses and events

  datatype SendResult = SentTask(task: WireTask) | SentMessage(text: string)

  function AsSentTask(task: Option<WireTask>): Option<SendResult> {
    if task.Some? then Some(SentTask(task.value)) else None
  }

  function ParseSendResult(v: Json): Option<SendResult> {
    if Get(v, KTask).Some? then AsSentTask(ParseTask(Get(v, KTask).value))
    else if Get(v, KMessage).Some? then Some(SentMessage(PartsText(Get(Get(v, KMessage).value, KParts))))
    else if GetStr(v, KKind) == Some("message") then Some(SentMessage(PartsText(Get(v, KParts))))
    else if GetStr(v, KKind) == Some("task") then AsSentTask(ParseTask(v))
    else if Get(v, KStatus).Some? then AsSentTask(ParseTask(v))
    else if Get(v, KParts).Some? then Some(SentMessage(PartsText(Get(v, KParts))))
    else None
  }

  datatype StreamEvent =
    | TaskEvent(task: WireTask) | MessageEvent(text: string)
    | StatusEvent(state: TaskState, statusText: Option<string>) | ArtifactEvent(chunk: string)

  function ParseStatusEvent(event: Json): Option<StreamEvent> {
    var status := Get(event, KStatus);
    if status.None? then None else Some(StatusEvent(StateOf(status), TextOf(status)))
  }

  function ParseArtifactEvent(event: Json): Option<StreamEvent> {
    var artifact := Get(event, KArtifact);
    if artifact.None? then None else Some(ArtifactEvent(PartsText(Get(artifact.value, KParts))))
  }

  function ParseStreamEvent(v: Json): Option<StreamEvent> {
    if Get(v, KStatusUpdate).Some? then ParseStatusEvent(Get(v, KStatusUpdate).value)
    else if Get(v, KArtifactUpdate).Some? then ParseArtifactEvent(Get(v, KArtifactUpdate).value)
    else if GetStr(v, KKind) == Some("status-update") then ParseStatusEvent(v)
    else if GetStr(v, KKind) == Some("artifact-update") then ParseArtifactEvent(v)
    else
      match ParseSendResult(v)
      case Some(SentTask(task)) => Some(TaskEvent(task))
      case Some(SentMessage(text)) => Some(MessageEvent(text))
      case None => None
  }

  function SendResultJson(task: WireTask, messageId: string, dialect: Dialect): Json {
    var task := TaskJson(task, messageId, dialect);
    if dialect.V1? then Obj(map[KTask := task]) else task
  }

  function StatusEventJson(task: WireTask, messageId: string, dialect: Dialect): Json {
    var fields := map[KTaskId := Str(task.id), KContextId := Str(task.contextId),
                      KStatus := StatusJson(task, messageId, dialect)];
    if dialect.V1? then Obj(map[KStatusUpdate := Obj(fields)])
    else Obj(fields[KKind := Str("status-update")][KFinal := Bool(task.state.Settled())])
  }

  function ArtifactEventJson(task: WireTask, artifactId: string, text: string, dialect: Dialect): Json {
    var fields := map[KTaskId := Str(task.id), KContextId := Str(task.contextId),
                      KArtifact := Obj(map[KArtifactId := Str(artifactId), KParts := Arr([TextPart(text, dialect)])]),
                      KAppend := Bool(true)];
    if dialect.V1? then Obj(map[KArtifactUpdate := Obj(fields)]) else Obj(fields[KKind := Str("artifact-update")])
  }

  /** A response to `SendMessage`, and a full snapshot on a stream, carry the task over. */
  lemma SendResultRoundTrip(task: WireTask, messageId: string, dialect: Dialect)
    ensures ParseSendResult(SendResultJson(task, messageId, dialect)) == Some(SentTask(Normalise(task)))
    ensures ParseStreamEvent(SendResultJson(task, messageId, dialect)) == Some(TaskEvent(Normalise(task)))
  {
    TaskRoundTrip(task, messageId, dialect);
    hide ParseTask;
    hide StatusJson;
    hide Normalise;
  }

  /** A status event carries the state and the status text over. */
  lemma StatusEventRoundTrip(task: WireTask, messageId: string, dialect: Dialect)
    ensures ParseStreamEvent(StatusEventJson(task, messageId, dialect))
         == Some(StatusEvent(task.state, Normalise(task).statusText))
  {
    StatusRoundTrip(task, messageId, dialect);
    hide StatusJson;
    hide StateOf;
    hide TextOf;
    hide NormalArtifacts;
  }

  /** An artifact event carries its text over, trimmed. */
  lemma ArtifactEventRoundTrip(task: WireTask, artifactId: string, text: string, dialect: Dialect)
    ensures ParseStreamEvent(ArtifactEventJson(task, artifactId, text, dialect)) == Some(ArtifactEvent(Trim(text)))
  {
    PartsTextOfOne(text, dialect);
    hide PartsText;
    hide TextPart;
    hide Trim;
  }

  /** A message instead of a task, as either dialect wraps it. */
  function AnswerJson(text: string, messageId: string, dialect: Dialect): Json {
    var message := MessageJson(text, false, messageId, dialect);
    if dialect.V1? then Obj(map[KMessage := message]) else message
  }

  /** A message is read as one, in a response and on a stream. */
  lemma AnswerRoundTrip(text: string, messageId: string, dialect: Dialect)
    ensures ParseSendResult(AnswerJson(text, messageId, dialect)) == Some(SentMessage(Trim(text)))
    ensures ParseStreamEvent(AnswerJson(text, messageId, dialect)) == Some(MessageEvent(Trim(text)))
  {
    PartsTextOfOne(text, dialect);
    hide PartsText; hide TextPart; hide Trim;
    var message := MessageJson(text, false, messageId, dialect);
    assert Get(message, KParts) == Some(Arr([TextPart(text, dialect)]));
  }

  /** Neither wrapped nor tagged, a task is known by its status and a message by its parts. */
  lemma BareOnesAreRead(task: WireTask, text: string, messageId: string)
    ensures ParseSendResult(TaskJson(task, messageId, V1)) == Some(SentTask(Normalise(task)))
    ensures ParseSendResult(MessageJson(text, false, messageId, V1)) == Some(SentMessage(Trim(text)))
  {
    TaskRoundTrip(task, messageId, V1);
    PartsTextOfOne(text, V1);
    hide ParseTask; hide PartsText; hide TextPart; hide Trim; hide StatusJson; hide Normalise; hide ArtifactsJson;
    var message := MessageJson(text, false, messageId, V1);
    assert Get(message, KParts) == Some(Arr([TextPart(text, V1)]));
    assert Get(TaskJson(task, messageId, V1), KStatus).Some?;
  }
}
