/** Which line of a model's reply a dependency number names. The model is asked for line numbers;
    the parser counts the rows it accepted. */
module PlanLines {
  import opened Tasks
  import opened Text
  import opened PlanText

  /** Whether a line becomes a row; that never hangs on the lines before it. */
  predicate Accepts(raw: string, available: set<Capability>, alphanumeric: char -> bool) {
    ReadRow(raw, available, alphanumeric, 0).Some?
  }

  lemma AcceptanceIsLocal(raw: string, available: set<Capability>, alphanumeric: char -> bool, known: nat)
    ensures ReadRow(raw, available, alphanumeric, known).Some? <==> Accepts(raw, available, alphanumeric)
  {
    hide ParseTaskType; hide Trim; hide StripBullets; hide SplitN; hide Split; hide BaselineCapabilities; hide RiskFor;
  }

  /** The places of the accepted lines, from zero: row `r` is read from line `AcceptedLines(..)[r]`. */
  function AcceptedLines(lines: seq<string>, available: set<Capability>, alphanumeric: char -> bool): seq<nat> {
    if lines == [] then []
    else
      var last := |lines| - 1;
      var before := AcceptedLines(lines[..last], available, alphanumeric);
      if Accepts(lines[last], available, alphanumeric) then before + [last] else before
  }

  /** They ascend, so a row's number never exceeds its line's. */
  ghost predicate Ascends(places: seq<nat>, end: nat) {
    && (forall r :: 0 <= r < |places| ==> r <= places[r] < end)
    && (forall r, q :: 0 <= r < q < |places| ==> places[r] < places[q])
  }

  lemma {:induction false} PlacesAscend(lines: seq<string>, available: set<Capability>, alphanumeric: char -> bool)
    ensures Ascends(AcceptedLines(lines, available, alphanumeric), |lines|)
  {
    hide Accepts;
    if lines != [] {
      PlacesAscend(lines[..|lines| - 1], available, alphanumeric);
      var before := AcceptedLines(lines[..|lines| - 1], available, alphanumeric);
      assert before != [] ==> |before| - 1 <= before[|before| - 1];
    }
  }

  lemma {:induction false} RowsAreAcceptedLines(lines: seq<string>, available: set<Capability>,
                                                alphanumeric: char -> bool, r: nat)
    requires r < |AcceptedLines(lines, available, alphanumeric)|
    ensures |AcceptedRows(lines, available, alphanumeric)| == |AcceptedLines(lines, available, alphanumeric)|
    ensures AcceptedLines(lines, available, alphanumeric)[r] < |lines|
    ensures Some(AcceptedRows(lines, available, alphanumeric)[r])
         == ReadRow(lines[AcceptedLines(lines, available, alphanumeric)[r]], available, alphanumeric, r)
  {
    hide ReadRow; hide Accepts;
    var last := |lines| - 1;
    var init := lines[..last];
    SameCount(init, available, alphanumeric);
    AcceptanceIsLocal(lines[last], available, alphanumeric, |AcceptedRows(init, available, alphanumeric)|);
    if r < |AcceptedLines(init, available, alphanumeric)| {
      RowsAreAcceptedLines(init, available, alphanumeric, r);
    }
  }

  lemma {:induction false} SameCount(lines: seq<string>, available: set<Capability>, alphanumeric: char -> bool)
    ensures |AcceptedRows(lines, available, alphanumeric)| == |AcceptedLines(lines, available, alphanumeric)|
  {
    hide ReadRow; hide Accepts;
    if lines != [] {
      var init := lines[..|lines| - 1];
      SameCount(init, available, alphanumeric);
      AcceptanceIsLocal(lines[|lines| - 1], available, alphanumeric, |AcceptedRows(init, available, alphanumeric)|);
    }
  }

  /** The numbers a line lists as what it depends on. */
  function Listed(raw: string): seq<string> {
    var parts := SplitN(Trim(StripBullets(Trim(raw))), 3, '|');
    if |parts| != 3 || Trim(parts[1]) == "-" then [] else Split(Trim(parts[1]), ',')
  }

  predicate Lists(raw: string, k: nat) {
    exists i :: 0 <= i < |Listed(raw)| && ParseNumber(Trim(Listed(raw)[i])) == Some(k)
  }

  lemma {:induction false} ReferencesAreNumbers(parts: seq<string>, known: nat, d: nat)
    ensures d in References(parts, known)
       <==> d < known && exists i :: 0 <= i < |parts| && ParseNumber(Trim(parts[i])) == Some(d + 1)
  {
    hide ParseNumber; hide Trim;
    if parts != [] {
      ReferencesAreNumbers(parts[1..], known, d);
      if i :| 0 <= i < |parts| && ParseNumber(Trim(parts[i])) == Some(d + 1) && i > 0 {
        assert parts[1..][i - 1] == parts[i];
      }
      if i :| 0 <= i < |parts[1..]| && ParseNumber(Trim(parts[1..][i])) == Some(d + 1) {
        assert parts[i + 1] == parts[1..][i];
      }
    }
  }

  lemma ReadRowLists(raw: string, available: set<Capability>, alphanumeric: char -> bool, known: nat, d: nat)
    requires Accepts(raw, available, alphanumeric)
    ensures var row := ReadRow(raw, available, alphanumeric, known);
            row.Some? && (d in row.value.dependencies <==> d < known && Lists(raw, d + 1))
  {
    ReferencesAreNumbers(Listed(raw), known, d);
    hide ParseTaskType; hide Trim; hide StripBullets; hide SplitN; hide Split; hide BaselineCapabilities; hide RiskFor;
    hide References; hide ParseNumber;
  }

  /** What the plan makes of a number that row `r` lists: it waits for the row with that number, if
      there is one before it, and then this is the line meant. */
  ghost predicate NamesItsLine(lines: seq<string>, available: set<Capability>, alphanumeric: char -> bool, r: nat,
                               k: nat)
    requires r < |AcceptedRows(lines, available, alphanumeric)| && k >= 1
  {
    var places := AcceptedLines(lines, available, alphanumeric);
    && k - 1 in AcceptedRows(lines, available, alphanumeric)[r].dependencies
    && k - 1 < |places| && places[k - 1] == k - 1
  }

  ghost predicate FirstAccepted(lines: seq<string>, available: set<Capability>, alphanumeric: char -> bool, k: nat)
    requires k <= |lines|
  {
    forall j :: 0 <= j < k ==> Accepts(lines[j], available, alphanumeric)
  }

  /** The first `k` rows are the first `k` lines exactly if all of these are accepted. */
  lemma {:induction false} FirstRowsAreFirstLines(lines: seq<string>, available: set<Capability>,
                                                  alphanumeric: char -> bool,
                                                  k: nat)
    requires 1 <= k <= |lines|
    ensures var places := AcceptedLines(lines, available, alphanumeric);
            k <= |places| && places[k - 1] == k - 1 <==> FirstAccepted(lines, available, alphanumeric, k)
  {
    hide Accepts;
    var last := |lines| - 1;
    var init := lines[..last];
    PlacesAscend(init, available, alphanumeric);
    PlacesAscend(lines, available, alphanumeric);
    if k <= last {
      FirstRowsAreFirstLines(init, available, alphanumeric, k);
    } else if last > 0 {
      FirstRowsAreFirstLines(init, available, alphanumeric, last);
    }
  }

  /** A number up to a row's own line means the line with that number, as the model was told, exactly
      when that line and all before it were accepted. Otherwise it is dropped or means a later line. */
  lemma NumberNamesLineIff(lines: seq<string>, available: set<Capability>, alphanumeric: char -> bool, r: nat, k: nat)
    requires r < |AcceptedRows(lines, available, alphanumeric)|
    requires r < |AcceptedLines(lines, available, alphanumeric)|
      && AcceptedLines(lines, available, alphanumeric)[r] < |lines|
    requires 1 <= k <= AcceptedLines(lines, available, alphanumeric)[r]
    requires Lists(lines[AcceptedLines(lines, available, alphanumeric)[r]], k)
    ensures NamesItsLine(lines, available, alphanumeric, r, k) <==> FirstAccepted(lines, available, alphanumeric, k)
    ensures k - 1 in AcceptedRows(lines, available, alphanumeric)[r].dependencies <==> k <= r
    ensures k <= r ==> AcceptedLines(lines, available, alphanumeric)[k - 1] >= k - 1
  {
    hide ReadRow; hide AcceptedRows; hide AcceptedLines; hide Lists; hide FirstAccepted; hide Accepts;
    var places := AcceptedLines(lines, available, alphanumeric);
    SameCount(lines, available, alphanumeric);
    RowsAreAcceptedLines(lines, available, alphanumeric, r);
    AcceptanceIsLocal(lines[places[r]], available, alphanumeric, r);
    ReadRowLists(lines[places[r]], available, alphanumeric, r, k - 1);
    PlacesAscend(lines, available, alphanumeric);
    FirstRowsAreFirstLines(lines, available, alphanumeric, k);
  }

  // ------------------------------------------------------------ a line that is skipped

  /** A fence line in front of a reply is skipped, so each row's line is one further down. */
  lemma {:induction false} FenceShifts(lines: seq<string>, available: set<Capability>, alphanumeric: char -> bool)
    ensures AcceptedRows(["```"] + lines, available, alphanumeric) == AcceptedRows(lines, available, alphanumeric)
    ensures |AcceptedLines(["```"] + lines, available, alphanumeric)| == |AcceptedLines(lines, available, alphanumeric)|
    ensures forall r :: 0 <= r < |AcceptedLines(lines, available, alphanumeric)| ==>
              AcceptedLines(["```"] + lines, available, alphanumeric)[r]
                == AcceptedLines(lines, available, alphanumeric)[r] + 1
  {
    var fenced := ["```"] + lines;
    FencesAreSkipped(available, alphanumeric);
    hide ReadRow; hide Accepts;
    if lines == [] {
      assert fenced == ["```"] && fenced[..0] == [];
    } else {
      var last := |lines| - 1;
      FenceShifts(lines[..last], available, alphanumeric);
      assert fenced[..|fenced| - 1] == ["```"] + lines[..last];
    }
  }

  lemma FencesAreSkipped(available: set<Capability>, alphanumeric: char -> bool)
    ensures !Accepts("```", available, alphanumeric)
    ensures ReadRow("```", available, alphanumeric, 0).None?
  {
    assert StripBullets("```") == "```" && Trim("```") == "```";
  }

  /** A reply within a code fence: its first line is the fence, and as far as the lines behind it are
      accepted, a number that is not dropped means the line after the one it names. */
  lemma FencedNumbersAreOff(body: string, available: set<Capability>, alphanumeric: char -> bool, k: nat)
    requires 1 <= k <= |Lines(body)| && FirstAccepted(Lines(body), available, alphanumeric, k)
    ensures var lines := Lines("```\n" + body);
            && AcceptedRows(lines, available, alphanumeric) == AcceptedRows(Lines(body), available, alphanumeric)
            && k <= |AcceptedLines(lines, available, alphanumeric)|
            && AcceptedLines(lines, available, alphanumeric)[k - 1] == k
  {
    FenceLine(body);
    FenceShifts(Lines(body), available, alphanumeric);
    hide Accepts; hide AcceptedRows; hide Lines;
    FirstRowsAreFirstLines(Lines(body), available, alphanumeric, k);
  }

  lemma FenceLine(body: string)
    ensures Lines("```\n" + body) == ["```"] + Lines(body)
  {
    var s := "```\n" + body;
    assert IndexOf(s, '\n') == 3 by {
      assert s[0] == '`' && s[1] == '`' && s[2] == '`' && s[3] == '\n';
    }
    assert s[..3] == "```" && s[4..] == body;
  }
}
