/** The fields of server-sent events: what a server may write, and what the reader makes of it. */
module SseFields {
  import opened Text
  import opened Sse

  /** A line of an event: one of data, with or without a space before the payload, or any other. */
  datatype Field = Data(payload: string, spaced: bool) | Other(line: string)

  /** A payload that begins with a space needs one before it, and another line says something else. */
  predicate Proper(field: Field) {
    match field
    case Data(payload, spaced) => OneLine(payload) && (spaced || payload == [] || payload[0] != ' ')
    case Other(line) => OneLine(line) && line != [] && !(DATA <= line)
  }

  function LineOf(field: Field): string {
    match field
    case Data(payload, spaced) => (if spaced then "data: " else "data:") + payload
    case Other(line) => line
  }

  function Block(fields: seq<Field>): string {
    if fields == [] then [] else LineOf(fields[0]) + ("\n" + Block(fields[1..]))
  }

  /** The events as a server sends them, a blank line behind each. */
  function Sent(events: seq<seq<Field>>): string {
    if events == [] then [] else Block(events[0]) + "\n" + Sent(events[1..])
  }

  function Payloads(fields: seq<Field>): seq<string> {
    if fields == [] then []
    else (if fields[0].Data? then [fields[0].payload] else []) + Payloads(fields[1..])
  }

  /** Their payloads, those of one event a line each; an event without data is none. */
  function Meant(events: seq<seq<Field>>): seq<string> {
    if events == [] then []
    else (if Payloads(events[0]) == [] then [] else [Join(Payloads(events[0]), "\n")]) + Meant(events[1..])
  }

  ghost predicate AllProper(fields: seq<Field>) {
    forall f :: f in fields ==> Proper(f)
  }

  lemma FieldReads(field: Field)
    requires Proper(field)
    ensures (if DATA <= LineOf(field) then [DropSpace(LineOf(field)[|DATA|..])] else [])
         == if field.Data? then [field.payload] else []
  {
    if field.Data? {
      var line := LineOf(field);
      assert line[..5] == DATA;
      if field.spaced {
        DataPayload(field.payload);
      } else {
        assert line[5..] == field.payload;
      }
    }
  }

  lemma LineIsVisible(field: Field)
    requires Proper(field)
    ensures LineOf(field) != [] && OneLine(LineOf(field))
  {
    if field.Data? {
      var line := LineOf(field);
      forall c | c in line
        ensures c != '\n' && c != '\r'
      {
        var i :| 0 <= i < |line| && line[i] == c;
        var before := if field.spaced then 6 else 5;
        assert i >= before ==> line[i] == field.payload[i - before];
      }
    }
  }

  lemma {:induction false} BlockIsVisible(fields: seq<Field>)
    requires AllProper(fields) && fields != []
    ensures var lines := Block(fields);
            && |lines| >= 2 && lines[|lines| - 1] == '\n' && lines[0] != '\n'
            && forall j :: 0 <= j < |lines| - 1 ==> !(lines[j] == '\n' && lines[j + 1] == '\n')
  {
    var line, rest := LineOf(fields[0]), Block(fields[1..]);
    LineIsVisible(fields[0]);
    hide LineOf; hide Proper;
    assert fields[1..] == [] ==> rest == [];
    if fields[1..] != [] {
      BlockIsVisible(fields[1..]);
    }
    var lines := line + ("\n" + rest);
    forall j | 0 <= j < |lines| - 1
      ensures !(lines[j] == '\n' && lines[j + 1] == '\n')
    {
      if j < |line| {
        assert lines[j] == line[j] && line[j] in line;
      } else if j > |line| {
        assert lines[j] == rest[j - |line| - 1] && lines[j + 1] == rest[j - |line|];
      } else {
        assert lines[j + 1] == rest[0];
      }
    }
  }

  lemma {:induction false} BlockGives(fields: seq<Field>)
    requires AllProper(fields)
    ensures DataLines(Lines(Block(fields) + "\n")) == Payloads(fields)
  {
    if fields == [] {
      BlankLineReads();
      assert [] + "\n" == "\n";
    } else {
      var line, rest := LineOf(fields[0]), Block(fields[1..]) + "\n";
      BlockGives(fields[1..]);
      LineIsVisible(fields[0]);
      FieldReads(fields[0]);
      assert Block(fields) + "\n" == line + ("\n" + rest);
      hide LineOf; hide Proper; hide Lines; hide DataLines; hide DropSpace;
      FirstLineReads(line, rest);
      DataLinesCons(line, Lines(rest));
    }
  }

  lemma EventGives(fields: seq<Field>)
    requires AllProper(fields)
    ensures EventOf(Block(fields) + "\n") == if Payloads(fields) == [] then [] else [Join(Payloads(fields), "\n")]
  {
    BlockGives(fields);
    hide DataLines; hide Lines; hide Block; hide Payloads;
  }

  /** Whatever events a server sends, of one data line or several and with whatever other lines in
      between, the reader reports the payloads of each that has data, in order, and nothing else. */
  lemma {:induction false} SentEventsAreRead(events: seq<seq<Field>>)
    requires forall e :: e in events ==> e != [] && AllProper(e)
    ensures Events(Sent(events)) == Meant(events) && Leftover(Sent(events)) == []
  {
    if events != [] {
      var first := events[0];
      assert first in events && forall e :: e in events[1..] ==> e in events;
      SentEventsAreRead(events[1..]);
      BlockIsVisible(first);
      EventGives(first);
      hide EventOf; hide Events; hide Leftover; hide Block; hide AllProper; hide Payloads;
      BlockReads(Block(first), Sent(events[1..]));
    }
  }

  /** However it is cut into chunks and whatever its line ends, as long as none of them is cut in two. */
  lemma SentInChunksIsRead(events: seq<seq<Field>>, chunks: seq<string>)
    requires forall e :: e in events ==> e != [] && AllProper(e)
    requires Normalised(Whole(chunks)) == Sent(events) && Straddles(chunks) == 0
    ensures Reported(chunks) == Meant(events) && Held(chunks) == []
  {
    SentEventsAreRead(events);
    TakenInIsLonger(chunks);
    hide *;
    ReaderSplitsWhatItTookIn(chunks);
  }
}
