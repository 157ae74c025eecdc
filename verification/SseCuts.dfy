/** When a line end cut in two by a chunk boundary changes the events that are reported. */
module SseCuts {
  import opened Text
  import opened Sse

  /** Complete lines only. */
  predicate Ended(s: string) {
    s == [] || s[|s| - 1] == '\n'
  }

  /** The payloads of a text's data lines. */
  function Data(s: string): seq<string> {
    DataLines(Lines(s))
  }

  lemma {:induction false} IndexStays(u: string, v: string)
    requires IndexOf(u, '\n') < |u|
    ensures IndexOf(u + v, '\n') == IndexOf(u, '\n')
  {
    if u[0] != '\n' {
      assert (u + v)[1..] == u[1..] + v;
      IndexStays(u[1..], v);
    }
  }

  /** The first line, and the others. */
  lemma LinesUnfold(s: string)
    requires IndexOf(s, '\n') < |s|
    ensures var i := IndexOf(s, '\n'); Lines(s) == [DropCarriageReturn(s[..i])] + Lines(s[i + 1..])
  {
    hide IndexOf; hide DropCarriageReturn;
  }

  lemma FirstOfBoth(u: string, v: string, i: nat)
    requires i < |u|
    ensures (u + v)[..i] == u[..i] && (u + v)[i + 1..] == u[i + 1..] + v
    ensures Ended(u) ==> Ended(u[i + 1..])
  {
  }

  lemma EndedHasLine(u: string)
    requires u != [] && Ended(u)
    ensures IndexOf(u, '\n') < |u|
  {
    hide IndexOf;
  }

  lemma {:induction false} LinesConcat(u: string, v: string)
    requires Ended(u)
    ensures Lines(u + v) == Lines(u) + Lines(v)
    decreases |u|
  {
    if u == [] {
      hide Lines;
      NoLines();
      assert u + v == v && [] + Lines(v) == Lines(v);
    } else {
      hide *;
      EndedHasLine(u);
      var i := IndexOf(u, '\n');
      IndexStays(u, v);
      FirstOfBoth(u, v, i);
      LinesUnfold(u);
      LinesUnfold(u + v);
      LinesConcat(u[i + 1..], v);
      ConcatAssociates([DropCarriageReturn(u[..i])], Lines(u[i + 1..]), Lines(v));
    }
  }

  lemma NoLines()
    ensures Lines([]) == []
  {
  }

  lemma {:induction false} DataLinesConcat(a: seq<string>, b: seq<string>)
    ensures DataLines(a + b) == DataLines(a) + DataLines(b)
  {
    if a == [] {
      assert a + b == b;
    } else {
      assert (a + b)[1..] == a[1..] + b;
      DataLinesConcat(a[1..], b);
      hide DropSpace;
      ConcatAssociates(if DATA <= a[0] then [DropSpace(a[0][|DATA|..])] else [], DataLines(a[1..]), DataLines(b));
    }
  }

  lemma DataConcat(u: string, v: string)
    requires Ended(u)
    ensures Data(u + v) == Data(u) + Data(v)
  {
    hide Lines; hide DataLines;
    LinesConcat(u, v);
    DataLinesConcat(Lines(u), Lines(v));
  }

  /** A blank line before or after adds nothing. */
  lemma BlankAddsNothing(s: string)
    ensures Data("\n" + s) == Data(s) && Data("\n") == []
    ensures Ended(s) ==> Data(s + "\n") == Data(s)
  {
    BlankLineReads();
    DataConcat("\n", s);
    hide Lines; hide DataLines;
    assert [] + Data(s) == Data(s);
    if Ended(s) {
      DataConcat(s, "\n");
      assert Data(s) + [] == Data(s);
    }
  }

  lemma EventFromData(s: string, t: string)
    requires Data(s) == Data(t)
    ensures EventOf(s) == EventOf(t)
  {
  }

  lemma NoDataNoEvent(s: string)
    ensures |EventOf(s)| == (if Data(s) == [] then 0 else 1)
  {
  }

  // ------------------------------------------------------------- where a block ends

  predicate NoBreak(s: string) {
    forall j :: 0 <= j < |s| - 1 ==> !(s[j] == '\n' && s[j + 1] == '\n')
  }

  lemma BreakIsNone(s: string)
    ensures Break(s) == |s| <==> NoBreak(s)
  {
    if Break(s) < |s| {
      assert s[Break(s)] == '\n' && s[Break(s) + 1] == '\n';
    }
  }

  lemma EndsHere(u: string, rest: string)
    requires u != [] && Ended(u) && NoBreak(u)
    ensures Events(u + "\n" + rest) == EventOf(u + "\n") + Events(rest)
  {
    var s := u + "\n" + rest;
    forall j | 0 <= j < |u| - 1
      ensures !(s[j] == '\n' && s[j + 1] == '\n')
    {
      assert s[j] == u[j] && s[j + 1] == u[j + 1];
    }
    BreakIsFirst(s, |u| - 1);
    assert s[..|u| + 1] == u + "\n" && s[|u| + 1..] == rest;
    hide EventOf; hide Break; hide Events;
    EventsUnfold(s);
  }

  lemma BreakLater(u: string, q: string)
    requires NoBreak(u) && q != [] && q[0] != '\n'
    ensures Break(u + q) == |u| + Break(q)
  {
    var s, i := u + q, Break(q);
    forall j | 0 <= j < |u| + i && j + 1 < |s|
      ensures !(s[j] == '\n' && s[j + 1] == '\n')
    {
      if j >= |u| {
        assert s[j] == q[j - |u|] && s[j + 1] == q[j - |u| + 1];
      } else if j + 1 < |u| {
        assert s[j] == u[j] && s[j + 1] == u[j + 1];
      } else {
        assert s[j + 1] == q[0];
      }
    }
    if i == |q| {
      BreakIsNone(s);
    } else {
      assert s[|u| + i] == q[i] && s[|u| + i + 1] == q[i + 1];
      BreakIsFirst(s, |u| + i);
    }
  }

  /** Lines before a visible line move the block's end back, and belong to the block. */
  lemma EndsLater(u: string, q: string)
    requires NoBreak(u) && q != [] && q[0] != '\n'
    ensures Break(q) == |q| ==> Events(u + q) == [] && Events(q) == []
    ensures Break(q) < |q| ==>
              && Events(u + q) == EventOf(u + q[..Break(q) + 2]) + Events(q[Break(q) + 2..])
              && Events(q) == EventOf(q[..Break(q) + 2]) + Events(q[Break(q) + 2..])
  {
    hide *;
    BreakLater(u, q);
    if Break(q) == |q| {
      EventsEnd(u + q);
      EventsEnd(q);
    } else {
      Slices(u, q, Break(q) + 2);
      EventsUnfold(u + q);
      EventsUnfold(q);
    }
  }

  lemma Slices(u: string, q: string, k: nat)
    requires k <= |q|
    ensures (u + q)[..|u| + k] == u + q[..k] && (u + q)[|u| + k..] == q[k..]
  {
  }

  lemma BlankBlock()
    ensures EventOf("\n\n") == []
  {
    BlankAddsNothing("\n");
    hide Data;
    assert "\n" + "\n" == "\n\n";
    NoDataNoEvent("\n\n");
  }

  lemma TwoBlanks(q: string)
    ensures Events("\n" + "\n" + q) == Events(q)
  {
    BlankBlock();
    hide EventOf; hide Events;
    EndsHere("\n", q);
    assert "\n" + "\n" == "\n\n";
    assert [] + Events(q) == Events(q);
  }

  lemma BlankBeforeVisible(q: string)
    requires q != [] && q[0] != '\n'
    ensures Events("\n" + q) == Events(q)
  {
    hide EventOf; hide Events; hide Data; hide Break;
    EndsLater("\n", q);
    if Break(q) < |q| {
      BlankAddsNothing(q[..Break(q) + 2]);
      EventFromData("\n" + q[..Break(q) + 2], q[..Break(q) + 2]);
    }
  }

  /** A blank line at the start of a text changes none of its events. */
  lemma {:induction false} LeadingBlank(q: string)
    ensures Events("\n" + q) == Events(q)
    decreases |q|
  {
    hide Events;
    if q == [] {
      NothingYet("\n" + q);
      NothingYet(q);
    } else if q[0] == '\n' {
      LeadingBlank(q[1..]);
      TwoBlanks(q[1..]);
      assert q == "\n" + q[1..] && "\n" + q == "\n" + "\n" + q[1..];
    } else {
      BlankBeforeVisible(q);
    }
  }

  // -------------------------------------------------------------------- the cut

  /** `held` is what was waiting in front of the cut line end, `q` what followed it. A line end
      counted twice ends the block early. That is harmless where the block was ending anyway, or has
      no data on one side. */
  predicate Harmless(held: string, q: string) {
    || Ended(held)
    || (q != [] && q[0] == '\n')
    || Data(held + "\n") == []
    || (Break(q) < |q| && Data(q[..Break(q) + 2]) == [])
  }

  lemma EndedIsHarmless(held: string, q: string)
    requires NoBreak(held) && Ended(held)
    ensures Events(held + "\n" + q) == Events(held + "\n" + ("\n" + q))
  {
    hide Events; hide EventOf;
    LeadingBlank(q);
    if held == [] {
      LeadingBlank("\n" + q);
      assert held + "\n" + q == "\n" + q && held + "\n" + ("\n" + q) == "\n" + ("\n" + q);
    } else {
      EndsHere(held, q);
      EndsHere(held, "\n" + q);
    }
  }

  lemma ClosedEarly(held: string, q: string)
    requires NoBreak(held) && !Ended(held)
    ensures NoBreak(held + "\n") && Events(held + "\n" + ("\n" + q)) == EventOf(held + "\n" + "\n") + Events(q)
  {
    var u := held + "\n";
    forall j | 0 <= j < |u| - 1
      ensures !(u[j] == '\n' && u[j + 1] == '\n')
    {
      assert u[j] == held[j] && (j + 1 < |held| ==> u[j + 1] == held[j + 1]);
    }
    assert u + ("\n" + q) == u + "\n" + q;
    hide EventOf; hide Events;
    EndsHere(u, q);
  }

  lemma OneOrTwo(u: string, block: string, rest: seq<string>)
    requires Ended(u)
    ensures EventOf(u + block) + rest == EventOf(u + "\n") + (EventOf(block) + rest)
       <==> Data(u) == [] || Data(block) == []
    ensures Data(u) != [] && Data(block) != [] ==>
              |EventOf(u + block) + rest| < |EventOf(u + "\n") + (EventOf(block) + rest)|
  {
    DataConcat(u, block);
    BlankAddsNothing(u);
    hide Data;
    NoDataNoEvent(u + block);
    NoDataNoEvent(u + "\n");
    NoDataNoEvent(block);
    if Data(u) == [] {
      assert [] + Data(block) == Data(block);
      EventFromData(u + block, block);
      hide EventOf;
      assert EventOf(u + "\n") + (EventOf(block) + rest) == EventOf(block) + rest;
    } else if Data(block) == [] {
      assert Data(u) + [] == Data(u);
      EventFromData(u + block, u + "\n");
      hide EventOf;
      assert EventOf(block) + rest == rest;
    } else {
      hide EventOf;
      assert |EventOf(u + block) + rest| < |EventOf(u + "\n") + (EventOf(block) + rest)|;
    }
  }

  /** What follows the waiting block decides, once it is not empty of lines. */
  lemma OpenCut(held: string, q: string)
    requires NoBreak(held) && !Ended(held)
    ensures Events(held + "\n" + q) == Events(held + "\n" + ("\n" + q)) <==> Harmless(held, q)
    ensures !Harmless(held, q) ==> |Events(held + "\n" + q)| < |Events(held + "\n" + ("\n" + q))|
  {
    hide Events; hide EventOf; hide Data; hide Break;
    var u := held + "\n";
    ClosedEarly(held, q);
    BlankAddsNothing(u);
    NoDataNoEvent(u + "\n");
    if q == [] {
      NothingYet(u);
      assert u + q == u && Break(q) == |q| by { NoBreakInNothing(q); }
      EventsEnd(q);
      assert EventOf(u + "\n") + [] == EventOf(u + "\n");
    } else if q[0] == '\n' {
      LeadingBlank(q[1..]);
      assert q == "\n" + q[1..] && u + q == u + "\n" + q[1..];
      EndsHere(u, q[1..]);
    } else {
      EndsLater(u, q);
      if Break(q) < |q| {
        OneOrTwo(u, q[..Break(q) + 2], Events(q[Break(q) + 2..]));
      } else {
        assert EventOf(u + "\n") + [] == EventOf(u + "\n");
      }
    }
  }

  lemma NothingYet(u: string)
    requires NoBreak(u)
    ensures Events(u) == []
  {
    BreakIsNone(u);
    EventsEnd(u);
  }

  lemma NoBreakInNothing(q: string)
    requires q == []
    ensures Break(q) == |q|
  {
  }

  /** A line end counted twice, anywhere in a text: no event changes exactly when that is harmless;
      otherwise there are more events than before. */
  lemma TwiceChangesNothingIff(p: string, q: string)
    ensures Events(p + ("\n" + q)) == Events(p + ("\n" + ("\n" + q))) <==> Harmless(Leftover(p), q)
    ensures !Harmless(Leftover(p), q) ==> |Events(p + ("\n" + q))| < |Events(p + ("\n" + ("\n" + q)))|
  {
    hide *;
    var held := Leftover(p);
    SplittingResumes(p, "\n" + ("\n" + q));
    SplittingResumes(p, "\n" + q);
    LeftoverIsIncomplete(p);
    BreakIsNone(held);
    ConcatAssociates(held, "\n", q);
    ConcatAssociates(held, "\n", "\n" + q);
    SamePrefix(Events(p), Events(held + "\n" + q), Events(held + "\n" + ("\n" + q)));
    if Ended(held) {
      EndedIsHarmless(held, q);
      HarmlessIfEnded(held, q);
    } else {
      OpenCut(held, q);
    }
  }

  lemma HarmlessIfEnded(held: string, q: string)
    requires Ended(held)
    ensures Harmless(held, q)
  {
  }

  lemma SamePrefix(a: seq<string>, x: seq<string>, y: seq<string>)
    ensures a + x == a + y <==> x == y
  {
    if a + x == a + y {
      assert (a + x)[|a|..] == x && (a + y)[|a|..] == y;
    }
  }

  // ------------------------------------------------------------------ all the cuts

  lemma {:induction false} WholeFrom(chunks: seq<string>)
    requires chunks != []
    ensures Whole(chunks) == chunks[0] + Whole(chunks[1..])
  {
    var n := |chunks| - 1;
    if n == 0 {
      assert chunks[..0] == [] && chunks[1..] == [];
    } else {
      WholeFrom(chunks[..n]);
      assert chunks[1..][..n - 1] == chunks[..n][1..] && chunks[1..][n - 1] == chunks[n];
      ConcatAssociates(chunks[0], Whole(chunks[..n][1..]), chunks[n]);
    }
  }

  /** The boundary behind chunk `k` cuts no line end, or does no harm: `TakenIn(..)` is what the reader
      had taken in before the chunk, and what follows the cut is normalised whole. */
  ghost predicate HarmlessAt(chunks: seq<string>, k: nat)
    requires k < |chunks|
  {
    var chunk, rest := chunks[k], Whole(chunks[k + 1..]);
    Straddle(chunk, rest) ==>
      Harmless(Leftover(TakenIn(chunks[..k]) + Normalised(chunk[..|chunk| - 1])), Normalised(rest[1..]))
  }

  /** The first `k` chunks taken in one by one, and the rest as a whole. */
  ghost function Mixed(chunks: seq<string>, k: nat): string
    requires k <= |chunks|
  {
    TakenIn(chunks[..k]) + Normalised(Whole(chunks[k..]))
  }

  lemma CutTexts(a: string, b: string)
    requires Straddle(a, b)
    ensures var p, q := Normalised(a[..|a| - 1]), Normalised(b[1..]);
            && Normalised(a) + Normalised(b) == p + ("\n" + ("\n" + q)) && Normalised(a + b) == p + ("\n" + q)
  {
    var a0, b1 := a[..|a| - 1], b[1..];
    assert a == a0 + "\r" && b == "\n" + b1;
    NormalisedConcat(a0, "\r");
    LoneReturn();
    NormalisedConcat("\n", b1);
    NormalisedPlain("\n");
    NormalisedConcat(a0, "\r\n" + b1);
    NormalisedConcat("\r\n", b1);
    ReturnFeed("");
    assert "\r\n" + "" == "\r\n" && "\n" + "" == "\n";
    hide Normalised;
    assert a + b == a0 + ("\r\n" + b1);
    var p, q := Normalised(a0), Normalised(b1);
    assert p + "\n" + ("\n" + q) == p + ("\n" + ("\n" + q));
  }

  lemma OneMoreTakenIn(chunks: seq<string>, k: nat)
    requires k < |chunks|
    ensures var taken, chunk, rest := TakenIn(chunks[..k]), chunks[k], Whole(chunks[k + 1..]);
            && Mixed(chunks, k) == taken + Normalised(chunk + rest)
            && Mixed(chunks, k + 1) == taken + (Normalised(chunk) + Normalised(rest))
  {
    hide Normalised;
    WholeFrom(chunks[k..]);
    assert chunks[k..][1..] == chunks[k + 1..];
    assert chunks[..k + 1][..k] == chunks[..k];
    ConcatAssociates(TakenIn(chunks[..k]), Normalised(chunks[k]), Normalised(Whole(chunks[k + 1..])));
  }

  /** One more chunk on its own: no event changes exactly when its boundary is harmless, and none is lost. */
  lemma BoundaryChangesNothingIff(chunks: seq<string>, k: nat)
    requires k < |chunks|
    ensures Events(Mixed(chunks, k)) == Events(Mixed(chunks, k + 1)) <==> HarmlessAt(chunks, k)
    ensures !HarmlessAt(chunks, k) ==> |Events(Mixed(chunks, k))| < |Events(Mixed(chunks, k + 1))|
  {
    var taken, chunk, rest := TakenIn(chunks[..k]), chunks[k], Whole(chunks[k + 1..]);
    OneMoreTakenIn(chunks, k);
    if Straddle(chunk, rest) {
      var p, q := Normalised(chunk[..|chunk| - 1]), Normalised(rest[1..]);
      CutTexts(chunk, rest);
      hide Normalised; hide Mixed; hide Harmless; hide Events; hide Leftover; hide TakenIn;
      ConcatAssociates(taken, p, "\n" + ("\n" + q));
      ConcatAssociates(taken, p, "\n" + q);
      TwiceChangesNothingIff(taken + p, q);
    } else {
      NormalisedConcat(chunk, rest);
    }
  }

  lemma {:induction false} BoundariesUpTo(chunks: seq<string>, k: nat)
    requires k <= |chunks|
    ensures (forall i :: 0 <= i < k ==> HarmlessAt(chunks, i)) ==> Events(Mixed(chunks, k)) == Events(Mixed(chunks, 0))
    ensures !(forall i :: 0 <= i < k ==> HarmlessAt(chunks, i)) ==>
              |Events(Mixed(chunks, k))| > |Events(Mixed(chunks, 0))|
  {
    hide HarmlessAt; hide Mixed; hide Events;
    if k > 0 {
      BoundariesUpTo(chunks, k - 1);
      BoundaryChangesNothingIff(chunks, k - 1);
    }
  }

  /** However a stream is cut into chunks, the reader reports the events of the whole exactly when
      every boundary is harmless; otherwise it reports more. */
  lemma ChunksChangeNothingIff(chunks: seq<string>)
    ensures Reported(chunks) == Reported([Whole(chunks)]) <==> forall k :: 0 <= k < |chunks| ==> HarmlessAt(chunks, k)
  {
    hide *;
    ReaderSplitsWhatItTookIn(chunks);
    ReaderSplitsWhatItTookIn([Whole(chunks)]);
    WholeAtOnce(Whole(chunks));
    MixedEnds(chunks);
    BoundariesUpTo(chunks, |chunks|);
  }

  lemma MixedEnds(chunks: seq<string>)
    ensures Mixed(chunks, 0) == Normalised(Whole(chunks)) && Mixed(chunks, |chunks|) == TakenIn(chunks)
  {
    assert chunks[..0] == [] && chunks[0..] == chunks && chunks[..|chunks|] == chunks && chunks[|chunks|..] == [];
    assert Normalised([]) == [] by {
      NormalisedPlain([]);
    }
    hide Normalised;
    assert TakenIn([]) == [] && Whole([]) == [];
  }
}
