/** Rows written the way the model is asked to write them are read as they were meant. */
module PlanNumbers {
  import opened Tasks
  import opened Text
  import opened PlanText

  const MAX_NUMBER: nat := 0xFFFF_FFFF_FFFF_FFFF

  // -------------------------------------------------------------------- numbers

  function DigitOf(d: nat): char
    requires d < 10
  {
    ('0' as int + d) as char
  }

  /** A number in decimal, without leading zeros. */
  function Decimal(n: nat): string {
    if n < 10 then [DigitOf(n)] else Decimal(n / 10) + [DigitOf(n % 10)]
  }

  lemma {:induction false} DecimalIsDigits(n: nat)
    ensures Decimal(n) != [] && forall c :: c in Decimal(n) ==> IsDigit(c)
    ensures Digits(Decimal(n)) == n
  {
    if n >= 10 {
      DecimalIsDigits(n / 10);
      var s := Decimal(n);
      assert s[..|s| - 1] == Decimal(n / 10);
    }
  }

  /** Every number the machine can hold is read back, with or without a plus sign; a larger one is no
      number. */
  lemma NumberRoundTrip(n: nat)
    ensures ParseNumber(Decimal(n)) == if n <= MAX_NUMBER then Some(n) else None
    ensures ParseNumber("+" + Decimal(n)) == ParseNumber(Decimal(n))
  {
    DecimalIsDigits(n);
    assert Decimal(n)[0] in Decimal(n);
    assert ("+" + Decimal(n))[1..] == Decimal(n);
    hide Digits;
  }

  /** Leading zeros count for nothing. */
  lemma {:induction false} LeadingZero(s: string)
    requires forall c :: c in s ==> IsDigit(c)
    ensures forall c :: c in "0" + s ==> IsDigit(c)
    ensures Digits("0" + s) == Digits(s)
  {
    if s != [] {
      var t := "0" + s;
      assert s[|s| - 1] in s && forall c :: c in s[..|s| - 1] ==> c in s;
      assert t[..|t| - 1] == "0" + s[..|s| - 1];
      LeadingZero(s[..|s| - 1]);
    }
  }

  /** Nothing else is a number: no text without digits, and none with anything but digits behind an
      optional plus sign. */
  lemma NoNumber(s: string)
    ensures var digits := if s != [] && s[0] == '+' then s[1..] else s;
            digits == [] || (exists c :: c in digits && !IsDigit(c)) ==> ParseNumber(s) == None
    ensures ParseNumber(s).Some? ==> s != [] && forall i :: 1 <= i < |s| ==> IsDigit(s[i])
  {
  }

  // ----------------------------------------------------------------------- rows

  /** Text without the character. */
  predicate Lacks(s: string, c: char) {
    c !in s
  }

  lemma {:induction false} TrimStartSpace(s: string)
    ensures TrimStart(" " + s) == TrimStart(s)
  {
    assert (" " + s)[1..] == s;
  }

  lemma TrimEndSpace(s: string)
    ensures TrimEnd(s + " ") == TrimEnd(s)
  {
    assert (s + " ")[..|s|] == s;
  }

  /** Spaces around a trimmed text are trimmed off. */
  lemma SpacesAreTrimmed(s: string)
    requires s != [] && Trimmed(s)
    ensures Trim(s) == s && Trim(" " + s) == s && Trim(s + " ") == s && Trim(" " + s + " ") == s
  {
    TrimStartSpace(s);
    TrimEndSpace(s);
    TrimStartSpace(s + " ");
    assert " " + s + " " == " " + (s + " ");
    assert TrimStart(s) == s && TrimEnd(s) == s && TrimStart(s + " ") == s + " ";
  }

  lemma {:induction false} FirstAt(s: string, c: char, rest: string)
    requires Lacks(s, c)
    ensures IndexOf(s + [c] + rest, c) == |s|
  {
    var t := s + [c] + rest;
    if s != [] {
      assert s[0] in s && t[1..] == s[1..] + [c] + rest;
      assert forall x :: x in s[1..] ==> x in s;
      FirstAt(s[1..], c, rest);
    }
  }

  lemma {:induction false} Nowhere(s: string, c: char)
    requires Lacks(s, c)
    ensures IndexOf(s, c) == |s|
  {
    if s != [] {
      assert s[0] in s && forall x :: x in s[1..] ==> x in s;
      Nowhere(s[1..], c);
    }
  }

  /** What is joined with commas is split again. */
  lemma {:induction false} SplitsWhatIsJoined(parts: seq<string>)
    requires parts != [] && forall i :: 0 <= i < |parts| ==> Lacks(parts[i], ',')
    ensures Split(Join(parts, ","), ',') == parts
  {
    if |parts| == 1 {
      Nowhere(parts[0], ',');
    } else {
      var rest := Join(parts[1..], ",");
      SplitsWhatIsJoined(parts[1..]);
      FirstAt(parts[0], ',', rest);
      var s := parts[0] + "," + rest;
      assert s[..|parts[0]|] == parts[0] && s[|parts[0]| + 1..] == rest;
    }
  }

  /** Two bars make three fields; whatever bars follow belong to the third. */
  lemma ThreeFields(a: string, b: string, c: string)
    requires Lacks(a, '|') && Lacks(b, '|')
    ensures SplitN(a + "|" + (b + "|" + c), 3, '|') == [a, b, c]
  {
    var rest := b + "|" + c;
    var s := a + "|" + rest;
    FirstAt(a, '|', rest);
    assert s[..|a|] == a && s[|a| + 1..] == rest;
    FirstAt(b, '|', c);
    assert rest[..|b|] == b && rest[|b| + 1..] == c;
    hide IndexOf;
    assert SplitN(c, 1, '|') == [c];
    assert SplitN(rest, 2, '|') == [b] + SplitN(c, 1, '|');
    assert SplitN(s, 3, '|') == [a] + SplitN(rest, 2, '|');
  }

  /** The words the model is told to use. */
  function TypeWord(t: TaskType): string {
    match t
    case Inspection => "inspection"
    case Research => "research"
    case Design => "design"
    case Implementation => "implementation"
    case BugFix => "bugfix"
    case Refactor => "refactor"
    case Testing => "testing"
    case Validation => "validation"
    case Documentation => "documentation"
    case Review => "review"
    case General => "general"
  }

  lemma WordIsPlain(t: TaskType)
    ensures var w := TypeWord(t); w != [] && Trimmed(w) && Lacks(w, '|') && w[0] != '-' && w[0] != '*' && w[0] != '`'
    ensures 'a' <= TypeWord(t)[0] <= 'z'
  {
  }

  lemma LowercaseStays(s: string)
    requires forall i :: 0 <= i < |s| ==> 'a' <= s[i] <= 'z'
    ensures Lowercase(s) == s
  {
    var t := Lowercase(s);
    forall i | 0 <= i < |s|
      ensures t[i] == s[i]
    {
      assert t[i] == ToLowerAscii(s[i]);
    }
  }

  lemma WordIsLowercase(t: TaskType)
    ensures Lowercase(TypeWord(t)) == TypeWord(t)
  {
    LowercaseStays(TypeWord(t));
  }

  lemma FirstWordsName(t: TaskType)
    requires t.Inspection? || t.Research? || t.Design? || t.Implementation? || t.BugFix?
    ensures TypeNamed(TypeWord(t)) == t
  {
  }

  lemma WordNames(t: TaskType)
    ensures TypeNamed(TypeWord(t)) == t
  {
    if t.Inspection? || t.Research? || t.Design? || t.Implementation? || t.BugFix? {
      FirstWordsName(t);
    }
  }

  /** The other words that are understood. */
  predicate Also(word: string, t: TaskType) {
    match t
    case Inspection => word == "inspect"
    case Design => word == "architecture"
    case Implementation => word == "implement"
    case BugFix => word == "bug_fix" || word == "debug"
    case Refactor => word == "refactoring"
    case Testing => word == "test" || word == "tests"
    case Validation => word == "validate"
    case Documentation => word == "docs"
    case _ => false
  }

  /** A type is named by its word or another, whatever its case and the space around it, and by nothing
      else; what names none is general work. */
  lemma TypesAreNamed(raw: string, t: TaskType)
    requires t != General
    ensures var word := Lowercase(Trim(raw));
            ParseTaskType(raw) == t <==> word == TypeWord(t) || Also(word, t)
  {
    if Also(Lowercase(Trim(raw)), t) {
      OtherWordsName(Lowercase(Trim(raw)), t);
    }
    WordNames(t);
    hide Lowercase; hide Trim;
  }

  lemma OtherWordsName(word: string, t: TaskType)
    requires Also(word, t)
    ensures TypeNamed(word) == t
  {
  }

  lemma WordReads(t: TaskType)
    ensures ParseTaskType(TypeWord(t)) == t && ParseTaskType(TypeWord(t) + " ") == t
  {
    WordNames(t);
    WordIsPlain(t);
    SpacesAreTrimmed(TypeWord(t));
    WordIsLowercase(t);
    hide Trim; hide Lowercase; hide TypeNamed; hide TypeWord;
  }

  function Decimals(numbers: seq<nat>): seq<string> {
    seq(|numbers|, i requires 0 <= i < |numbers| => Decimal(numbers[i]))
  }

  function DependsOn(numbers: seq<nat>): string {
    if numbers == [] then "-" else Join(Decimals(numbers), ",")
  }

  /** A row as the prompt asks for it: type, line numbers, description. */
  function Line(t: TaskType, numbers: seq<nat>, description: string): string {
    TypeWord(t) + " " + "|" + (" " + DependsOn(numbers) + " " + "|" + (" " + description))
  }

  /** The earlier rows that the numbers name, from zero, in the order they are listed. */
  function Named(numbers: seq<nat>, known: nat): seq<nat> {
    if numbers == [] then []
    else (if 1 <= numbers[0] <= known then [numbers[0] - 1] else []) + Named(numbers[1..], known)
  }

  lemma {:induction false} NumbersAreRead(numbers: seq<nat>, known: nat)
    requires forall i :: 0 <= i < |numbers| ==> numbers[i] <= MAX_NUMBER
    ensures References(Decimals(numbers), known) == Named(numbers, known)
  {
    if numbers != [] {
      assert Decimals(numbers)[1..] == Decimals(numbers[1..]) && Decimals(numbers)[0] == Decimal(numbers[0]);
      NumbersAreRead(numbers[1..], known);
      NumberRoundTrip(numbers[0]);
      DecimalIsVisible(numbers[0]);
      SpacesAreTrimmed(Decimal(numbers[0]));
      hide ParseNumber; hide Trim; hide Decimal;
    }
  }

  lemma DecimalIsVisible(n: nat)
    ensures Decimal(n) != [] && Trimmed(Decimal(n)) && Lacks(Decimal(n), ',') && Lacks(Decimal(n), '|')
    ensures Decimal(n)[0] != '-'
  {
    DecimalIsDigits(n);
    var s := Decimal(n);
    assert IsDigit(s[0]) && IsDigit(s[|s| - 1]) by {
      assert s[0] in s && s[|s| - 1] in s;
    }
    hide Decimal; hide Digits;
  }

  lemma {:induction false} JoinedNumbers(parts: seq<string>)
    requires parts != []
    requires forall i :: 0 <= i < |parts| ==>
               parts[i] != [] && Trimmed(parts[i]) && Lacks(parts[i], '|') && parts[i][0] != '-'
    ensures var s := Join(parts, ","); s != [] && Trimmed(s) && Lacks(s, '|') && s[0] != '-'
  {
    if |parts| > 1 {
      JoinedNumbers(parts[1..]);
      var rest := Join(parts[1..], ",");
      var s := Join(parts, ",");
      assert s == parts[0] + "," + rest;
      assert s[0] == parts[0][0] && s[|s| - 1] == rest[|rest| - 1];
    }
  }

  lemma DependsOnIsVisible(numbers: seq<nat>)
    ensures var s := DependsOn(numbers); s != [] && Trimmed(s) && Lacks(s, '|') && (s == "-" <==> numbers == [])
  {
    if numbers != [] {
      var parts := Decimals(numbers);
      forall i | 0 <= i < |parts|
        ensures parts[i] != [] && Trimmed(parts[i]) && Lacks(parts[i], '|') && parts[i][0] != '-'
      {
        DecimalIsVisible(numbers[i]);
      }
      hide Decimal; hide Decimals; hide Trimmed; hide Lacks;
      JoinedNumbers(parts);
    }
  }

  lemma DependenciesAreRead(numbers: seq<nat>, known: nat)
    requires forall i :: 0 <= i < |numbers| ==> numbers[i] <= MAX_NUMBER
    ensures var field := " " + DependsOn(numbers) + " ";
            (if Trim(field) == "-" then [] else References(Split(Trim(field), ','), known)) == Named(numbers, known)
  {
    DependsOnIsVisible(numbers);
    SpacesAreTrimmed(DependsOn(numbers));
    if numbers != [] {
      var parts := Decimals(numbers);
      forall i | 0 <= i < |parts|
        ensures Lacks(parts[i], ',')
      {
        DecimalIsVisible(numbers[i]);
      }
      hide Decimal; hide Trim; hide Trimmed; hide Lacks; hide Split; hide References; hide Join;
      SplitsWhatIsJoined(parts);
      NumbersAreRead(numbers, known);
    }
  }

  /** The line itself has nothing to strip. */
  lemma LineIsPlain(t: TaskType, numbers: seq<nat>, description: string)
    requires description != [] && Trimmed(description)
    ensures var line := Line(t, numbers, description);
            && line != [] && !("```" <= line) && Trim(line) == line && StripBullets(line) == line
  {
    WordIsPlain(t);
    var line := Line(t, numbers, description);
    assert line[0] == TypeWord(t)[0] && line[|line| - 1] == description[|description| - 1];
    assert !("```" <= line) by {
      assert line[0] != '`';
    }
    hide TypeWord; hide DependsOn; hide Line;
    TrimIsIdempotent(line);
  }

  lemma LineHasThreeFields(t: TaskType, numbers: seq<nat>, description: string)
    ensures SplitN(Line(t, numbers, description), 3, '|')
         == [TypeWord(t) + " ", " " + DependsOn(numbers) + " ", " " + description]
  {
    WordIsPlain(t);
    DependsOnIsVisible(numbers);
    hide TypeWord; hide DependsOn; hide SplitN; hide Trimmed;
    ThreeFields(TypeWord(t) + " ", " " + DependsOn(numbers) + " ", " " + description);
  }

  /** The risk a type of work implies. */
  predicate RiskFits(t: TaskType, risk: Risk) {
    && (risk == ReadOnly <==> t == Inspection || t == TaskType.Research || t == Design || t == Review)
    && (risk == Low <==> t == TaskType.Documentation || t == TaskType.Testing || t == Validation)
    && risk != High
  }

  /** Every row written as the prompt asks is read as it was meant: its type, its description, bars and
      all, the rows its numbers name, and the risk of its type; or is left out, exactly if what is
      available cannot execute it. */
  lemma RowRoundTrip(t: TaskType, numbers: seq<nat>, description: string, available: set<Capability>,
                     alphanumeric: char -> bool, known: nat)
    requires description != [] && Trimmed(description) && exists c :: c in description && alphanumeric(c)
    requires forall i :: 0 <= i < |numbers| ==> numbers[i] <= MAX_NUMBER
    ensures var row := ReadRow(Line(t, numbers, description), available, alphanumeric, known);
            if available != {} && !(BaselineCapabilities(t) <= available) then row == None
            else
              && row.Some? && row.value.dependencies == Named(numbers, known)
              && row.value.spec == NewSpec(description, t).(risk := row.value.spec.risk)
              && RiskFits(t, row.value.spec.risk)
  {
    LineIsPlain(t, numbers, description);
    LineHasThreeFields(t, numbers, description);
    FieldsAreRead(t, numbers, description, available, alphanumeric, known);
    hide *;
    LineReads(Line(t, numbers, description), available, alphanumeric, known);
  }

  lemma LineReads(line: string, available: set<Capability>, alphanumeric: char -> bool, known: nat)
    requires line != [] && !("```" <= line) && Trim(line) == line && StripBullets(line) == line
    ensures var parts := SplitN(line, 3, '|');
            |parts| == 3 ==>
              ReadRow(line, available, alphanumeric, known)
              == ReadFields(parts[0], parts[1], parts[2], available, alphanumeric, known)
  {
    hide Trim; hide StripBullets; hide SplitN; hide ReadFields;
  }

  lemma FieldsAreRead(t: TaskType, numbers: seq<nat>, description: string, available: set<Capability>,
                      alphanumeric: char -> bool, known: nat)
    requires description != [] && Trimmed(description) && exists c :: c in description && alphanumeric(c)
    requires forall i :: 0 <= i < |numbers| ==> numbers[i] <= MAX_NUMBER
    ensures var row := ReadFields(TypeWord(t) + " ", " " + DependsOn(numbers) + " ", " " + description,
                                  available, alphanumeric, known);
            if available != {} && !(BaselineCapabilities(t) <= available) then row == None
            else
              && row.Some? && row.value.dependencies == Named(numbers, known)
              && row.value.spec == NewSpec(description, t).(risk := row.value.spec.risk)
              && RiskFits(t, row.value.spec.risk)
  {
    WordReads(t);
    WordIsPlain(t);
    SpacesAreTrimmed(TypeWord(t));
    DependenciesAreRead(numbers, known);
    SpacesAreTrimmed(description);
    hide *;
    RiskOf(t);
    FieldsMean(TypeWord(t) + " ", " " + DependsOn(numbers) + " ", " " + description, t, Named(numbers, known),
               description, available, alphanumeric, known);
  }

  lemma RiskOf(t: TaskType)
    ensures RiskFits(t, RiskFor(t))
  {
  }

  lemma FieldsMean(kindField: string, numbersField: string, textField: string, t: TaskType, dependencies: seq<nat>,
                   description: string, available: set<Capability>, alphanumeric: char -> bool, known: nat)
    requires Trim(kindField) != [] && ParseTaskType(kindField) == t && Trim(textField) == description
    requires exists c :: c in description && alphanumeric(c)
    requires dependencies
          == if Trim(numbersField) == "-" then [] else References(Split(Trim(numbersField), ','), known)
    ensures ReadFields(kindField, numbersField, textField, available, alphanumeric, known)
         == if available != {} && !(BaselineCapabilities(t) <= available) then None
            else Some(PlanRow(NewSpec(description, t).(risk := RiskFor(t)), dependencies))
  {
    hide Trim; hide Split; hide ParseTaskType; hide BaselineCapabilities; hide RiskFor; hide References;
  }

  lemma Cut(s: string, n: nat) returns (first: string, rest: string)
    requires n > 1 && |SplitN(s, n, '|')| > 1
    ensures s == first + "|" + rest && Lacks(first, '|') && SplitN(s, n, '|') == [first] + SplitN(rest, n - 1, '|')
  {
    var i := IndexOf(s, '|');
    first, rest := s[..i], s[i + 1..];
  }

  lemma TwoBars(line: string) returns (a: string, b: string, c: string)
    requires |SplitN(line, 3, '|')| == 3
    ensures SplitN(line, 3, '|') == [a, b, c]
    ensures line == a + "|" + (b + "|" + c) && Lacks(a, '|') && Lacks(b, '|')
  {
    var rest;
    a, rest := Cut(line, 3);
    b, c := Cut(rest, 2);
    assert SplitN(c, 1, '|') == [c];
    hide SplitN; hide Lacks;
    assert [a] + ([b] + [c]) == [a, b, c];
  }

  /** No other line is read as a row: a row has three fields, of which the first names its type and is
      not blank, and the third is its description and has a letter or a digit; and it opens no fence. */
  lemma RowsHaveThreeFields(raw: string, available: set<Capability>, alphanumeric: char -> bool, known: nat)
    returns (a: string, b: string, c: string)
    requires ReadRow(raw, available, alphanumeric, known).Some?
    ensures var line, row := Trim(StripBullets(Trim(raw))), ReadRow(raw, available, alphanumeric, known).value;
            && line == a + "|" + (b + "|" + c) && Lacks(a, '|') && Lacks(b, '|') && !("```" <= line)
            && Trim(a) != [] && row.spec.taskType == ParseTaskType(a)
            && row.spec.description == Trim(c) && exists x :: x in Trim(c) && alphanumeric(x)
  {
    var line := Trim(StripBullets(Trim(raw)));
    a, b, c := TwoBars(line);
    hide Trim; hide StripBullets; hide SplitN; hide ParseTaskType; hide Split; hide BaselineCapabilities; hide RiskFor;
    hide References;
  }

  // -------------------------------------------------------------------- bullets

  predicate IsBullet(c: char) {
    c == '-' || c == '*' || c as int == 0x2022
  }

  lemma {:induction false} TrimEndBehind(c: char, s: string)
    requires !IsWhitespace(c)
    ensures TrimEnd([c] + s) == [c] + TrimEnd(s)
  {
    if s != [] && IsWhitespace(s[|s| - 1]) {
      assert ([c] + s)[..|s|] == [c] + s[..|s| - 1];
      TrimEndBehind(c, s[..|s| - 1]);
    } else if s == [] {
      assert [c] + s == [c];
    }
  }

  lemma {:induction false} TrimDropsLast(s: string, w: char)
    requires IsWhitespace(w)
    ensures Trim(s + [w]) == Trim(s)
  {
    if s == [] {
      assert TrimStart([w]) == TrimStart([w][1..]) == [];
      assert s + [w] == [w];
    } else if IsWhitespace(s[0]) {
      assert (s + [w])[1..] == s[1..] + [w];
      TrimDropsLast(s[1..], w);
    } else {
      assert (s + [w])[..|s|] == s;
    }
  }

  lemma {:induction false} TrimmedBehindFirst(s: string)
    ensures Trim(TrimEnd(s)) == Trim(s)
  {
    if s != [] && IsWhitespace(s[|s| - 1]) {
      var n := |s| - 1;
      TrimmedBehindFirst(s[..n]);
      TrimDropsLast(s[..n], s[n]);
      assert s == s[..n] + [s[n]];
    }
  }

  lemma Unbulleted(raw: string)
    requires Trim(raw) != [] && !IsBullet(Trim(raw)[0])
    ensures StripBullets(Trim(raw)) == Trim(raw) && StripBullets(TrimEnd(raw)) == TrimEnd(raw)
  {
    TrimEndEnds(raw);
    TrimmedBehindFirst(raw);
    assert TrimEnd(raw) != [] && TrimEnd(raw)[0] == raw[0];
    if !IsWhitespace(raw[0]) {
      assert Trim(raw) == TrimEnd(raw);
    }
  }

  /** A row behind a bullet, with space or without, is read as the row. */
  lemma BulletsDoNotShow(bullet: char, raw: string, available: set<Capability>, alphanumeric: char -> bool, known: nat)
    requires IsBullet(bullet) && Trim(raw) != [] && !IsBullet(Trim(raw)[0])
    ensures ReadRow([bullet] + raw, available, alphanumeric, known) == ReadRow(raw, available, alphanumeric, known)
  {
    TrimEndBehind(bullet, raw);
    assert TrimStart([bullet] + raw) == [bullet] + raw;
    assert ([bullet] + TrimEnd(raw))[1..] == TrimEnd(raw);
    assert StripBullets(Trim([bullet] + raw)) == StripBullets(TrimEnd(raw));
    Unbulleted(raw);
    TrimmedBehindFirst(raw);
    TrimIsIdempotent(raw);
    hide ReadFields; hide Trim; hide TrimEnd; hide StripBullets; hide SplitN;
  }

  /** Which rows are named. */
  lemma {:induction false} NamedAre(numbers: seq<nat>, known: nat, d: nat)
    ensures d in Named(numbers, known) <==> d < known && d + 1 in numbers
  {
    if numbers != [] {
      NamedAre(numbers[1..], known, d);
    }
  }

  // ---------------------------------------------------------------- whole replies

  /** A step of a plan as the model means it. */
  datatype Meant = Meant(kind: TaskType, numbers: seq<nat>, description: string) {
    /** It can be written on one line, and says something. */
    predicate Writable(alphanumeric: char -> bool) {
      && description != [] && Trimmed(description) && Lacks(description, '\n')
      && (exists c :: c in description && alphanumeric(c))
      && (forall i :: 0 <= i < |numbers| ==> numbers[i] <= MAX_NUMBER)
    }
  }

  function LinesFor(steps: seq<Meant>): seq<string> {
    seq(|steps|, i requires 0 <= i < |steps| => Line(steps[i].kind, steps[i].numbers, steps[i].description))
  }

  predicate PlainLine(line: string) {
    line != [] && Lacks(line, '\n') && line[|line| - 1] != '\r'
  }

  lemma {:induction false} LinesOfJoined(lines: seq<string>)
    requires forall i :: 0 <= i < |lines| ==> PlainLine(lines[i])
    ensures Lines(Join(lines, "\n")) == lines
  {
    if |lines| == 1 {
      Nowhere(lines[0], '\n');
    } else if lines != [] {
      var rest := Join(lines[1..], "\n");
      LinesOfJoined(lines[1..]);
      FirstAt(lines[0], '\n', rest);
      var s := lines[0] + "\n" + rest;
      assert s[..|lines[0]|] == lines[0] && s[|lines[0]| + 1..] == rest;
      assert Join(lines, "\n") == s;
    }
  }

  lemma {:induction false} JoinLacks(parts: seq<string>, separator: string, c: char)
    requires Lacks(separator, c) && forall i :: 0 <= i < |parts| ==> Lacks(parts[i], c)
    ensures Lacks(Join(parts, separator), c)
  {
    if |parts| > 1 {
      JoinLacks(parts[1..], separator, c);
    }
  }

  lemma NumbersAreOneLine(numbers: seq<nat>)
    ensures Lacks(DependsOn(numbers), '\n')
  {
    forall i | 0 <= i < |numbers|
      ensures Lacks(Decimals(numbers)[i], '\n')
    {
      DecimalIsDigits(numbers[i]);
    }
    hide Decimal; hide Digits; hide Decimals;
    JoinLacks(Decimals(numbers), ",", '\n');
  }

  lemma WordIsOneLine(t: TaskType)
    ensures Lacks(TypeWord(t), '\n')
  {
  }

  lemma LineIsOneLine(step: Meant, alphanumeric: char -> bool)
    requires step.Writable(alphanumeric)
    ensures PlainLine(Line(step.kind, step.numbers, step.description))
  {
    WordIsOneLine(step.kind);
    NumbersAreOneLine(step.numbers);
    var line := Line(step.kind, step.numbers, step.description);
    assert line[|line| - 1] == step.description[|step.description| - 1];
    hide TypeWord; hide DependsOn;
  }

  /** Row `i` is step `i` as it was meant. */
  predicate AsMeant(row: PlanRow, step: Meant, i: nat) {
    && row.dependencies == Named(step.numbers, i)
    && row.spec == NewSpec(step.description, step.kind).(risk := row.spec.risk)
    && RiskFits(step.kind, row.spec.risk)
  }

  lemma StepIsRead(step: Meant, available: set<Capability>, alphanumeric: char -> bool, i: nat)
    requires step.Writable(alphanumeric) && (available == {} || BaselineCapabilities(step.kind) <= available)
    ensures var row := ReadRow(Line(step.kind, step.numbers, step.description), available, alphanumeric, i);
            row.Some? && AsMeant(row.value, step, i)
  {
    RowRoundTrip(step.kind, step.numbers, step.description, available, alphanumeric, i);
    hide ReadRow; hide Line; hide Named; hide RiskFits; hide BaselineCapabilities; hide NewSpec; hide Trimmed;
    hide Lacks;
  }

  ghost predicate AllAsMeant(rows: seq<PlanRow>, steps: seq<Meant>) {
    |rows| == |steps| && forall i :: 0 <= i < |rows| ==> AsMeant(rows[i], steps[i], i)
  }

  lemma OneMoreAsMeant(rows: seq<PlanRow>, steps: seq<Meant>, row: PlanRow)
    requires steps != [] && AllAsMeant(rows, steps[..|steps| - 1]) && AsMeant(row, steps[|steps| - 1], |steps| - 1)
    ensures AllAsMeant(rows + [row], steps)
  {
    hide AsMeant;
    assert forall i :: 0 <= i < |rows| ==> steps[..|steps| - 1][i] == steps[i];
  }

  lemma LastLine(steps: seq<Meant>)
    requires steps != []
    ensures var n, lines := |steps| - 1, LinesFor(steps);
            && |lines| == |steps| && lines[..n] == LinesFor(steps[..n])
            && lines[n] == Line(steps[n].kind, steps[n].numbers, steps[n].description)
  {
    hide Line;
  }

  lemma LastRow(lines: seq<string>, available: set<Capability>, alphanumeric: char -> bool)
    requires lines != []
    ensures var before := AcceptedRows(lines[..|lines| - 1], available, alphanumeric);
            var row := ReadRow(lines[|lines| - 1], available, alphanumeric, |before|);
            row.Some? ==> AcceptedRows(lines, available, alphanumeric) == before + [row.value]
  {
    hide ReadRow;
  }

  lemma {:induction false} RowsAsMeant(steps: seq<Meant>, available: set<Capability>, alphanumeric: char -> bool)
    requires forall i :: 0 <= i < |steps| ==> steps[i].Writable(alphanumeric)
    requires available == {} || forall i :: 0 <= i < |steps| ==> BaselineCapabilities(steps[i].kind) <= available
    ensures AllAsMeant(AcceptedRows(LinesFor(steps), available, alphanumeric), steps)
  {
    hide *;
    if steps == [] {
      NothingMeant(available, alphanumeric);
    } else {
      var n, lines := |steps| - 1, LinesFor(steps);
      RowsAsMeant(steps[..n], available, alphanumeric);
      var before := AcceptedRows(LinesFor(steps[..n]), available, alphanumeric);
      AsManyAsMeant(before, steps[..n]);
      LastLine(steps);
      assert steps[n].Writable(alphanumeric);
      StepIsRead(steps[n], available, alphanumeric, n);
      LastRow(lines, available, alphanumeric);
      OneMoreAsMeant(before, steps, ReadRow(lines[n], available, alphanumeric, n).value);
    }
  }

  lemma NothingMeant(available: set<Capability>, alphanumeric: char -> bool)
    ensures AllAsMeant(AcceptedRows(LinesFor([]), available, alphanumeric), [])
  {
  }

  lemma AsManyAsMeant(rows: seq<PlanRow>, steps: seq<Meant>)
    requires AllAsMeant(rows, steps)
    ensures |rows| == |steps|
  {
    hide AsMeant;
  }

  /** A reply written as the prompt asks, of steps that can all be executed, is read as the plan it
      means: each step a row, in order, waiting for the earlier lines it names. */
  lemma ReplyRoundTrip(steps: seq<Meant>, available: set<Capability>, alphanumeric: char -> bool)
    requires forall i :: 0 <= i < |steps| ==> steps[i].Writable(alphanumeric)
    requires available == {} || forall i :: 0 <= i < |steps| ==> BaselineCapabilities(steps[i].kind) <= available
    ensures AllAsMeant(AcceptedRows(Lines(Join(LinesFor(steps), "\n")), available, alphanumeric), steps)
  {
    forall i | 0 <= i < |steps|
      ensures PlainLine(LinesFor(steps)[i])
    {
      LineIsOneLine(steps[i], alphanumeric);
    }
    RowsAsMeant(steps, available, alphanumeric);
    hide *;
    LinesOfJoined(LinesFor(steps));
  }
}
