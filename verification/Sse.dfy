/** Splitting a server-sent event stream that arrives in chunks into the data of its events. */
module Sse {
  import opened Text

  // ------------------------------------------------------------------ line ends

  function CollapseCrLf(s: string): string {
    if s == [] then []
    else if |s| >= 2 && s[0] == '\r' && s[1] == '\n' then ['\n'] + CollapseCrLf(s[2..])
    else [s[0]] + CollapseCrLf(s[1..])
  }

  function CrToLf(c: char): char {
    if c == '\r' then '\n' else c
  }

  /** Every line end as a single line feed. */
  function Normalised(s: string): string {
    MapText(CollapseCrLf(s), CrToLf)
  }

  predicate Plain(s: string) {
    '\r' !in s
  }

  /** `a` ends with the first half of a line end whose second half begins `b`. */
  predicate Straddle(a: string, b: string) {
    a != [] && b != [] && a[|a| - 1] == '\r' && b[0] == '\n'
  }

  lemma {:induction false} CollapsePlain(s: string)
    requires Plain(s)
    ensures CollapseCrLf(s) == s
  {
    if s != [] {
      CollapsePlain(s[1..]);
    }
  }

  lemma NormalisedPlain(s: string)
    ensures Plain(Normalised(s))
    ensures Plain(s) ==> Normalised(s) == s
  {
    var n := Normalised(s);
    var c := CollapseCrLf(s);
    assert |n| == |c| && forall i :: 0 <= i < |n| ==> n[i] == CrToLf(c[i]);
    if Plain(s) {
      CollapsePlain(s);
      assert forall i :: 0 <= i < |s| ==> s[i] in s;
      assert n == s;
    }
  }

  lemma CollapsePair(s: string)
    requires |s| >= 2 && s[0] == '\r' && s[1] == '\n'
    ensures CollapseCrLf(s) == ['\n'] + CollapseCrLf(s[2..])
  {
  }

  lemma CollapseOne(s: string)
    requires s != [] && !(|s| >= 2 && s[0] == '\r' && s[1] == '\n')
    ensures CollapseCrLf(s) == [s[0]] + CollapseCrLf(s[1..])
  {
  }

  /** What holds of two pieces: collapsed piecewise and whole they agree, but for a line end cut in two. */
  predicate Collapses(a: string, b: string) {
    && (!Straddle(a, b) ==> CollapseCrLf(a + b) == CollapseCrLf(a) + CollapseCrLf(b))
    && (Straddle(a, b) ==> |CollapseCrLf(a + b)| + 1 == |CollapseCrLf(a)| + |CollapseCrLf(b)|)
  }

  lemma NothingCollapses(b: string)
    ensures Collapses([], b)
  {
    assert [] + b == b;
    assert CollapseCrLf([]) == [];
    hide CollapseCrLf;
    assert CollapseCrLf([]) + CollapseCrLf(b) == CollapseCrLf(b);
  }

  /** Whether a cut falls into a pair shows at the end of the first piece. */
  lemma StraddleOfTail(a: string, k: nat, b: string)
    requires k <= |a| && (k == |a| ==> !Straddle(a, b))
    ensures Straddle(a, b) <==> Straddle(a[k..], b)
  {
  }

  /** A head that collapses on its own changes nothing about the rest. */
  lemma HeadCollapses(a: string, k: nat, head: string, b: string)
    requires k <= |a| && (k == |a| ==> !Straddle(a, b)) && Collapses(a[k..], b)
    requires CollapseCrLf(a) == head + CollapseCrLf(a[k..]) && CollapseCrLf(a + b) == head + CollapseCrLf(a[k..] + b)
    ensures Collapses(a, b)
  {
    StraddleOfTail(a, k, b);
    hide CollapseCrLf; hide Straddle;
    ConcatAssociates(head, CollapseCrLf(a[k..]), CollapseCrLf(b));
  }

  lemma TailOfBoth(a: string, k: nat, b: string)
    requires k <= |a|
    ensures (a + b)[k..] == a[k..] + b && forall i :: 0 <= i < |a| ==> (a + b)[i] == a[i]
  {
  }

  lemma PairCollapses(a: string, b: string)
    requires |a| >= 2 && a[0] == '\r' && a[1] == '\n' && Collapses(a[2..], b)
    ensures Collapses(a, b)
  {
    hide Collapses; hide CollapseCrLf;
    TailOfBoth(a, 2, b);
    CollapsePair(a);
    CollapsePair(a + b);
    HeadCollapses(a, 2, ['\n'], b);
  }

  lemma OneCollapses(a: string, b: string)
    requires a != [] && !(|a| >= 2 && a[0] == '\r' && a[1] == '\n') && !(|a| == 1 && Straddle(a, b))
    requires Collapses(a[1..], b)
    ensures Collapses(a, b)
  {
    hide Collapses; hide CollapseCrLf;
    TailOfBoth(a, 1, b);
    CollapseOne(a);
    assert |a| == 1 && b != [] ==> (a + b)[1] == b[0];
    CollapseOne(a + b);
    HeadCollapses(a, 1, [a[0]], b);
  }

  lemma CutCollapses(a: string, b: string)
    requires |a| == 1 && Straddle(a, b)
    ensures Collapses(a, b)
  {
    CollapsePair(a + b);
    CollapseOne(b);
    CollapseOne(a);
    assert CollapseCrLf(a[1..]) == [];
    hide CollapseCrLf;
    assert (a + b)[2..] == b[1..];
  }

  /** Normalising piecewise is normalising whole, but for a line end cut in two, which counts twice. */
  lemma {:induction false} CollapseConcat(a: string, b: string)
    ensures Collapses(a, b)
    decreases |a|
  {
    hide Collapses; hide CollapseCrLf;
    if a == [] {
      NothingCollapses(b);
    } else if |a| >= 2 && a[0] == '\r' && a[1] == '\n' {
      CollapseConcat(a[2..], b);
      PairCollapses(a, b);
    } else if |a| == 1 && Straddle(a, b) {
      CutCollapses(a, b);
    } else {
      CollapseConcat(a[1..], b);
      OneCollapses(a, b);
    }
  }

  lemma NormalisedConcat(a: string, b: string)
    ensures !Straddle(a, b) ==> Normalised(a + b) == Normalised(a) + Normalised(b)
    ensures |Normalised(a + b)| + (if Straddle(a, b) then 1 else 0) == |Normalised(a)| + |Normalised(b)|
  {
    CollapseConcat(a, b);
    hide CollapseCrLf;
  }

  // ------------------------------------------------------------------ splitting

  /** Where the first blank line begins, or the length. */
  function Break(s: string): (i: nat)
    ensures i <= |s|
    ensures i < |s| ==> i + 1 < |s| && s[i] == '\n' && s[i + 1] == '\n'
    ensures forall j :: 0 <= j < i && j + 1 < |s| ==> !(s[j] == '\n' && s[j + 1] == '\n')
  {
    if |s| < 2 then |s|
    else if s[0] == '\n' && s[1] == '\n' then 0
    else 1 + Break(s[1..])
  }

  const DATA := "data:"

  /** The payloads of a block's data lines. */
  function DataLines(lines: seq<string>): seq<string> {
    if lines == [] then []
    else (if DATA <= lines[0] then [DropSpace(lines[0][|DATA|..])] else []) + DataLines(lines[1..])
  }

  function DropSpace(d: string): string {
    if d != [] && d[0] == ' ' then d[1..] else d
  }

  /** The event a block carries, if any. */
  function EventOf(block: string): seq<string> {
    var data := DataLines(Lines(block));
    if data == [] then [] else [Join(data, "\n")]
  }

  /** The events of the complete blocks of `s`. */
  function Events(s: string): seq<string>
    decreases |s|
  {
    var i := Break(s);
    if i == |s| then [] else EventOf(s[..i + 2]) + Events(s[i + 2..])
  }

  /** What follows the last complete block. */
  function Leftover(s: string): string
    decreases |s|
  {
    var i := Break(s);
    if i == |s| then s else Leftover(s[i + 2..])
  }

  lemma BreakIsFirst(s: string, i: nat)
    requires i + 1 < |s| && s[i] == '\n' && s[i + 1] == '\n'
    requires forall j :: 0 <= j < i ==> !(s[j] == '\n' && s[j + 1] == '\n')
    ensures Break(s) == i
  {
  }

  /** The leftover holds no complete event, and has no carriage return if the text had none. */
  lemma {:induction false} LeftoverIsIncomplete(s: string)
    ensures Break(Leftover(s)) == |Leftover(s)| && Events(Leftover(s)) == []
    ensures Plain(s) ==> Plain(Leftover(s))
    decreases |s|
  {
    var i := Break(s);
    if i < |s| {
      LeftoverIsIncomplete(s[i + 2..]);
    }
  }

  /** A block that is complete is complete whatever follows. */
  lemma BreakStays(s: string, t: string)
    requires Break(s) < |s|
    ensures Break(s + t) == Break(s)
    ensures (s + t)[..Break(s) + 2] == s[..Break(s) + 2] && (s + t)[Break(s) + 2..] == s[Break(s) + 2..] + t
  {
    var i := Break(s);
    forall j | 0 <= j < i
      ensures !((s + t)[j] == '\n' && (s + t)[j + 1] == '\n')
    {
      assert (s + t)[j] == s[j] && (s + t)[j + 1] == s[j + 1];
    }
    BreakIsFirst(s + t, i);
  }

  lemma EventsUnfold(s: string)
    requires Break(s) < |s|
    ensures Events(s) == EventOf(s[..Break(s) + 2]) + Events(s[Break(s) + 2..])
    ensures Leftover(s) == Leftover(s[Break(s) + 2..])
  {
    hide Break; hide EventOf;
    assert Leftover(s) == Leftover(s[Break(s) + 2..]) by { hide Events; }
  }

  lemma EventsEnd(s: string)
    requires Break(s) == |s|
    ensures Events(s) == [] && Leftover(s) == s
  {
  }

  lemma ConcatAssociates<T>(a: seq<T>, b: seq<T>, c: seq<T>)
    ensures a + (b + c) == (a + b) + c
  {
  }

  /** Splitting what has come so far, and later the leftover with the rest, is splitting it all at once. */
  lemma {:induction false} SplittingResumes(s: string, t: string)
    ensures Events(s + t) == Events(s) + Events(Leftover(s) + t)
    ensures Leftover(s + t) == Leftover(Leftover(s) + t)
    decreases |s|
  {
    hide Events; hide Leftover; hide EventOf; hide Break;
    if Break(s) < |s| {
      var rest := s[Break(s) + 2..];
      BreakStays(s, t);
      EventsUnfold(s);
      EventsUnfold(s + t);
      SplittingResumes(rest, t);
      var first, more, last := EventOf(s[..Break(s) + 2]), Events(rest), Events(Leftover(rest) + t);
      ConcatAssociates(first, more, last);
    } else {
      EventsEnd(s);
      assert [] + Events(s + t) == Events(s + t);
    }
  }

  /** Part of the way through `text`: what was reported, and what is still to be split. */
  ghost predicate Splitting(text: string, events: seq<string>, rest: string) {
    Events(text) == events + Events(rest) && Leftover(text) == Leftover(rest)
  }

  lemma SplittingStarts(text: string)
    ensures Splitting(text, [], text)
  {
    hide Events; hide Leftover;
    assert [] + Events(text) == Events(text);
  }

  lemma SplittingGoesOn(text: string, events: seq<string>, rest: string, block: string, tail: string)
    requires Splitting(text, events, rest)
    requires Events(rest) == EventOf(block) + Events(tail) && Leftover(rest) == Leftover(tail)
    ensures Splitting(text, events + EventOf(block), tail)
  {
    hide Events; hide Leftover; hide EventOf; hide Break;
    ConcatAssociates(events, EventOf(block), Events(tail));
  }

  lemma SplittingEnds(text: string, events: seq<string>, rest: string)
    requires Splitting(text, events, rest) && Break(rest) == |rest|
    ensures events == Events(text) && rest == Leftover(text)
  {
    EventsEnd(rest);
  }

  lemma NothingToNormalise(s: string)
    ensures '\r' !in s ==> Normalised(s) == s
  {
    NormalisedPlain(s);
    hide Normalised;
  }

  class SseReader {
    var buffer: string

    constructor ()
      ensures buffer == []
    {
      buffer := [];
    }

    /** Take in a chunk; every event it completes. */
    method Feed(chunk: string) returns (events: seq<string>)
      modifies this
      ensures events == Events(Normalised(old(buffer) + chunk))
      ensures buffer == Leftover(Normalised(old(buffer) + chunk))
    {
      hide *;
      buffer := buffer + chunk;
      NothingToNormalise(buffer);
      if '\r' in buffer {
        buffer := Normalised(buffer);
      }
      ghost var text := buffer;
      events := [];
      var end := Break(buffer);
      SplittingStarts(text);
      while end < |buffer|
        invariant end == Break(buffer)
        invariant Splitting(text, events, buffer)
        decreases |buffer|
      {
        EventsUnfold(buffer);
        var block := buffer[..end + 2];
        SplittingGoesOn(text, events, buffer, block, buffer[end + 2..]);
        buffer := buffer[end + 2..];
        events := events + EventOf(block);
        end := Break(buffer);
      }
      SplittingEnds(text, events, buffer);
    }
  }

  // ------------------------------------------------------------------- chunking

  function Whole(chunks: seq<string>): string {
    if chunks == [] then [] else Whole(chunks[..|chunks| - 1]) + chunks[|chunks| - 1]
  }

  /** What a new reader has reported after the chunks were fed to it one by one. */
  function Reported(chunks: seq<string>): seq<string> {
    if chunks == [] then []
    else
      var before := chunks[..|chunks| - 1];
      Reported(before) + Events(Normalised(Held(before) + chunks[|chunks| - 1]))
  }

  /** And what it still holds. */
  function Held(chunks: seq<string>): string {
    if chunks == [] then []
    else Leftover(Normalised(Held(chunks[..|chunks| - 1]) + chunks[|chunks| - 1]))
  }

  /** Feed the chunks to a new reader. */
  method FeedAll(chunks: seq<string>) returns (events: seq<string>, held: string)
    ensures events == Reported(chunks) && held == Held(chunks)
  {
    var reader := new SseReader();
    events := [];
    var i := 0;
    hide Events; hide Leftover; hide Normalised;
    while i < |chunks|
      invariant i <= |chunks|
      invariant events == Reported(chunks[..i]) && reader.buffer == Held(chunks[..i])
    {
      assert chunks[..i + 1][..i] == chunks[..i];
      var more := reader.Feed(chunks[i]);
      events := events + more;
      i := i + 1;
    }
    assert chunks[..i] == chunks;
    held := reader.buffer;
  }

  /** The text the reader took in: each chunk normalised on its own. */
  function TakenIn(chunks: seq<string>): string {
    if chunks == [] then [] else TakenIn(chunks[..|chunks| - 1]) + Normalised(chunks[|chunks| - 1])
  }

  /** How many chunk boundaries cut a line end in two. */
  function Straddles(chunks: seq<string>): nat {
    if chunks == [] then 0
    else
      var before := chunks[..|chunks| - 1];
      Straddles(before) + if Straddle(Whole(before), chunks[|chunks| - 1]) then 1 else 0
  }

  /** Whatever the chunks, the reader reports the events of the text it took in and holds its leftover. */
  lemma {:induction false} ReaderSplitsWhatItTookIn(chunks: seq<string>)
    ensures Reported(chunks) == Events(TakenIn(chunks)) && Held(chunks) == Leftover(TakenIn(chunks))
    ensures Plain(TakenIn(chunks))
  {
    if chunks != [] {
      var before, chunk := chunks[..|chunks| - 1], chunks[|chunks| - 1];
      ReaderSplitsWhatItTookIn(before);
      var held := Held(before);
      LeftoverIsIncomplete(TakenIn(before));
      NormalisedPlain(held);
      NormalisedPlain(chunk);
      NormalisedConcat(held, chunk);
      assert !Straddle(held, chunk);
      hide Events; hide Leftover; hide Normalised; hide Straddle;
      SplittingResumes(TakenIn(before), Normalised(chunk));
    }
  }

  lemma {:induction false} TakenInIsLonger(chunks: seq<string>)
    ensures |TakenIn(chunks)| == |Normalised(Whole(chunks))| + Straddles(chunks)
    ensures Straddles(chunks) == 0 ==> TakenIn(chunks) == Normalised(Whole(chunks))
  {
    if chunks != [] {
      var before, chunk := chunks[..|chunks| - 1], chunks[|chunks| - 1];
      TakenInIsLonger(before);
      NormalisedConcat(Whole(before), chunk);
      hide Normalised; hide Straddle;
    }
  }

  /** The reader takes in exactly the normalised stream if and only if no boundary cuts a line end. */
  lemma TakesInTheStreamIffNothingIsCut(chunks: seq<string>)
    ensures TakenIn(chunks) == Normalised(Whole(chunks)) <==> Straddles(chunks) == 0
  {
    TakenInIsLonger(chunks);
  }

  lemma WholeAtOnce(text: string)
    ensures TakenIn([text]) == Normalised(text)
  {
    hide Normalised;
    assert [text][..0] == [];
    assert TakenIn([text]) == [] + Normalised(text);
  }

  /** Then the chunking does not matter: the events and the leftover are those of the whole. */
  lemma ChunkingDoesNotMatter(chunks: seq<string>)
    requires Straddles(chunks) == 0
    ensures Reported(chunks) == Reported([Whole(chunks)]) && Held(chunks) == Held([Whole(chunks)])
  {
    var whole := [Whole(chunks)];
    ReaderSplitsWhatItTookIn(chunks);
    ReaderSplitsWhatItTookIn(whole);
    TakenInIsLonger(chunks);
    WholeAtOnce(Whole(chunks));
    hide TakenIn; hide Reported; hide Held; hide Events; hide Leftover; hide Normalised;
  }

  // ---------------------------------------------------------- what a server sends

  /** One line of data: no line end inside. */
  predicate OneLine(p: string) {
    '\n' !in p && '\r' !in p
  }

  function DataLine(p: string): string {
    "data: " + p + "\n"
  }

  /** The payloads as a server sends them: one data line each, and a blank line. */
  function Encoded(payloads: seq<string>): string {
    if payloads == [] then [] else DataLine(payloads[0]) + "\n" + Encoded(payloads[1..])
  }

  lemma {:induction false} FirstLineEnds(line: string, rest: string)
    requires '\n' !in line
    ensures IndexOf(line + ("\n" + rest), '\n') == |line|
    decreases |line|
  {
    var s := line + ("\n" + rest);
    if line != [] {
      assert line[0] in line && forall c :: c in line[1..] ==> c in line;
      assert s[1..] == line[1..] + ("\n" + rest);
      FirstLineEnds(line[1..], rest);
    }
  }

  lemma FirstLineReads(line: string, rest: string)
    requires '\n' !in line && '\r' !in line
    ensures Lines(line + ("\n" + rest)) == [line] + Lines(rest)
  {
    FirstLineEnds(line, rest);
    var s := line + ("\n" + rest);
    assert s[..|line|] == line && s[|line| + 1..] == rest;
    assert line != [] ==> line[|line| - 1] in line;
    assert DropCarriageReturn(line) == line;
    hide DropCarriageReturn; hide IndexOf;
  }

  lemma DataLinesCons(line: string, more: seq<string>)
    ensures DataLines([line] + more) == (if DATA <= line then [DropSpace(line[|DATA|..])] else []) + DataLines(more)
  {
    assert ([line] + more)[0] == line && ([line] + more)[1..] == more;
  }

  lemma DataPayload(p: string)
    ensures DATA <= "data: " + p && DropSpace(("data: " + p)[|DATA|..]) == p
  {
    var line := "data: " + p;
    assert line[..5] == DATA;
    assert line[5..] == " " + p;
    assert (" " + p)[1..] == p;
  }

  /** The first data line of a text gives its payload; the rest follows. */
  lemma DataLineReads(p: string, rest: string)
    requires OneLine(p)
    ensures DataLines(Lines(DataLine(p) + rest)) == [p] + DataLines(Lines(rest))
  {
    var line := "data: " + p;
    assert DataLine(p) + rest == line + ("\n" + rest);
    hide Lines; hide DataLines; hide DropSpace; hide DataLine;
    FirstLineReads(line, rest);
    DataLinesCons(line, Lines(rest));
    DataPayload(p);
  }

  lemma BlankLineReads()
    ensures DataLines(Lines("\n")) == []
  {
    assert "\n"[..0] == "" && "\n"[1..] == "";
    assert Lines("\n") == [""] + Lines("");
  }

  /** A text of visible lines has its first blank line where it is put. */
  lemma BlockEnds(lines: string, rest: string)
    requires |lines| >= 2 && lines[|lines| - 1] == '\n' && lines[0] != '\n'
    requires forall j :: 0 <= j < |lines| - 1 ==> !(lines[j] == '\n' && lines[j + 1] == '\n')
    ensures var s := lines + "\n" + rest;
            Break(s) == |lines| - 1 && s[..|lines| + 1] == lines + "\n" && s[|lines| + 1..] == rest
  {
    var s := lines + "\n" + rest;
    forall j | 0 <= j < |lines| - 1
      ensures !(s[j] == '\n' && s[j + 1] == '\n')
    {
      assert s[j] == lines[j] && s[j + 1] == lines[j + 1];
    }
    BreakIsFirst(s, |lines| - 1);
  }

  /** One block, then the rest. */
  lemma BlockReads(lines: string, rest: string)
    requires |lines| >= 2 && lines[|lines| - 1] == '\n' && lines[0] != '\n'
    requires forall j :: 0 <= j < |lines| - 1 ==> !(lines[j] == '\n' && lines[j + 1] == '\n')
    ensures Events(lines + "\n" + rest) == EventOf(lines + "\n") + Events(rest)
    ensures Leftover(lines + "\n" + rest) == Leftover(rest)
  {
    hide EventOf; hide Events; hide Leftover; hide Break;
    BlockEnds(lines, rest);
    EventsUnfold(lines + "\n" + rest);
  }

  lemma DataLineIsVisible(p: string)
    requires OneLine(p)
    ensures var lines := DataLine(p);
            && |lines| >= 2 && lines[|lines| - 1] == '\n' && lines[0] != '\n'
            && forall j :: 0 <= j < |lines| - 1 ==> lines[j] != '\n'
  {
    var lines := DataLine(p);
    forall j | 0 <= j < |lines| - 1
      ensures lines[j] != '\n'
    {
      if j >= 6 {
        assert lines[j] == p[j - 6] && p[j - 6] in p;
      }
    }
  }

  lemma OneEvent(p: string)
    requires OneLine(p)
    ensures EventOf(DataLine(p) + "\n") == [p]
  {
    DataLineReads(p, "\n");
    BlankLineReads();
    hide DataLines; hide Lines;
    assert [p] + [] == [p];
  }

  /** Whatever single-line payloads a server sends, the reader reports exactly those, in order. */
  lemma {:induction false} EncodedEventsAreRead(payloads: seq<string>)
    requires forall p :: p in payloads ==> OneLine(p)
    ensures Events(Encoded(payloads)) == payloads && Leftover(Encoded(payloads)) == []
  {
    if payloads != [] {
      var p := payloads[0];
      EncodedEventsAreRead(payloads[1..]);
      DataLineIsVisible(p);
      OneEvent(p);
      hide EventOf; hide Events; hide Leftover; hide DataLine; hide OneLine;
      BlockReads(DataLine(p), Encoded(payloads[1..]));
      assert [p] + payloads[1..] == payloads;
    }
  }

  // --------------------------------------------------- a line end cut in two

  lemma LoneReturn()
    ensures Normalised("\r") == "\n"
  {
    assert "\r"[1..] == "";
    assert CollapseCrLf("\r") == ['\r'] + CollapseCrLf("");
    assert CrToLf('\r') == '\n';
    assert |Normalised("\r")| == 1 && Normalised("\r")[0] == CrToLf(CollapseCrLf("\r")[0]);
  }

  lemma ReturnFeed(rest: string)
    requires Plain(rest)
    ensures Normalised("\r\n" + rest) == "\n" + rest
  {
    var s := "\r\n" + rest;
    CollapsePlain(rest);
    assert s[2..] == rest;
    assert CollapseCrLf(s) == "\n" + rest;
    assert Plain("\n" + rest);
    CollapsePlain("\n" + rest);
    NormalisedPlain("\n" + rest);
    hide CollapseCrLf; hide MapText;
    assert Normalised(s) == Normalised("\n" + rest);
  }

  lemma NormalisedReturn(p: string)
    requires OneLine(p)
    ensures Normalised("data: " + p + "\r") == DataLine(p)
  {
    var line := "data: " + p;
    NormalisedPlain(line);
    NormalisedConcat(line, "\r");
    LoneReturn();
    hide Normalised;
  }

  lemma NormalisedReturnFeed(p: string, rest: string)
    requires OneLine(p) && Plain(rest)
    ensures Normalised("data: " + p + "\r" + ("\n" + rest)) == DataLine(p) + rest
  {
    var line := "data: " + p;
    NormalisedPlain(line);
    NormalisedConcat(line, "\r\n" + rest);
    ReturnFeed(rest);
    hide Normalised;
    assert "data: " + p + "\r" + ("\n" + rest) == line + ("\r\n" + rest);
    assert line + ("\n" + rest) == DataLine(p) + rest;
  }

  lemma TwoLinesAreVisible(p: string, q: string)
    requires OneLine(p) && OneLine(q)
    ensures var lines := DataLine(p) + DataLine(q);
            && |lines| >= 2 && lines[|lines| - 1] == '\n' && lines[0] != '\n'
            && forall j :: 0 <= j < |lines| - 1 ==> !(lines[j] == '\n' && lines[j + 1] == '\n')
  {
    DataLineIsVisible(p);
    DataLineIsVisible(q);
    hide DataLine;
  }

  lemma TwoLinesMakeOneEvent(p: string, q: string)
    requires OneLine(p) && OneLine(q)
    ensures EventOf(DataLine(p) + (DataLine(q) + "\n")) == [p + "\n" + q]
  {
    DataLineReads(p, DataLine(q) + "\n");
    DataLineReads(q, "\n");
    BlankLineReads();
    TwoJoin(p, q);
    hide DataLine; hide DataLines; hide Lines; hide OneLine; hide Join;
  }

  lemma TwoLinesRead(p: string, q: string)
    requires OneLine(p) && OneLine(q)
    ensures Events(DataLine(p) + (DataLine(q) + "\n")) == [p + "\n" + q]
  {
    TwoLinesMakeOneEvent(p, q);
    TwoLinesAreVisible(p, q);
    BlockReads(DataLine(p) + DataLine(q), "");
    EventsEnd("");
    hide *;
    Regroup(DataLine(p), DataLine(q));
  }

  lemma Regroup(a: string, b: string)
    ensures a + b + "\n" + "" == a + (b + "\n") && a + b + "\n" == a + (b + "\n")
    ensures a + ("\n" + (b + "\n")) == a + "\n" + (b + "\n")
  {
  }

  lemma TwoJoin(p: string, q: string)
    ensures Join([p] + ([q] + []), "\n") == p + "\n" + q
  {
    assert ([p] + ([q] + []))[1..] == [q];
  }

  /** An event of two data lines sent with carriage-return line-feed ends, cut inside the first
      line end: the reader reports two events where the whole stream holds one. */
  lemma CutLineEndSplitsAnEvent(p: string, q: string)
    requires OneLine(p) && OneLine(q)
    ensures var head, tail := "data: " + p + "\r", "\n" + (DataLine(q) + "\n");
            && Reported([head, tail]) == [p, q]
            && Reported([head + tail]) == [p + "\n" + q]
  {
    var head, tail, after := "data: " + p + "\r", "\n" + (DataLine(q) + "\n"), DataLine(q) + "\n";
    PlainLines(q);
    hide *;
    NormalisedReturn(p);
    NormalisedReturnFeed(p, after);
    NormalisedPlain(tail);
    TwoLinesRead(p, q);
    EncodedEventsAreRead([p, q]);
    TwoTakenIn(head, tail);
    WholeAtOnce(head + tail);
    ReaderSplitsWhatItTookIn([head, tail]);
    ReaderSplitsWhatItTookIn([head + tail]);
    TwoEncoded(p, q);
    Regroup(DataLine(p), DataLine(q));
  }

  lemma PlainLines(q: string)
    requires OneLine(q)
    ensures Plain(DataLine(q) + "\n") && Plain("\n" + (DataLine(q) + "\n"))
  {
  }

  lemma TwoEncoded(p: string, q: string)
    ensures Encoded([p, q]) == DataLine(p) + "\n" + (DataLine(q) + "\n")
  {
    hide DataLine;
    assert [p, q][1..] == [q] && [q][1..] == [];
    assert Encoded([q]) == DataLine(q) + "\n" + [];
  }

  lemma TwoTakenIn(a: string, b: string)
    ensures TakenIn([a, b]) == Normalised(a) + Normalised(b)
  {
    hide Normalised;
    assert [a, b][..1] == [a];
    WholeAtOnce(a);
  }
}
