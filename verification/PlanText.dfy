/** Reading a model's reply as a plan. The reply is untrusted text: rows that do not parse,
    or that nothing registered can execute, are skipped. */
module PlanText {
  import opened Tasks
  import opened Text

  datatype Capability =
    | CodeComprehension | FileSystem | Research | Architecture | Planning | CodeGeneration | CodeEditing
    | Debugging | Refactoring | Testing | ShellExecution | Documentation | CodeReview | Custom(name: string)

  function BaselineCapabilities(t: TaskType): set<Capability> {
    match t
    case Inspection => {CodeComprehension, FileSystem}
    case Research => {Capability.Research}
    case Design => {Architecture, Planning}
    case Implementation => {CodeGeneration, CodeEditing, FileSystem}
    case BugFix => {Debugging, CodeEditing, CodeComprehension}
    case Refactor => {Refactoring, CodeEditing, CodeComprehension}
    case Testing => {Capability.Testing, CodeGeneration}
    case Validation => {ShellExecution}
    case Documentation => {Capability.Documentation}
    case Review => {CodeReview, CodeComprehension}
    case General => {}
  }

  /** What `required` asks for that `available` does not have. */
  function Missing(available: set<Capability>, required: set<Capability>): (missing: set<Capability>)
    ensures missing == {} <==> required <= available
  {
    assert forall c :: c in required && c !in available ==> c in required - available;
    required - available
  }

  function TypeNamed(word: string): TaskType {
    if word == "inspection" || word == "inspect" then Inspection
    else if word == "research" then TaskType.Research
    else if word == "design" || word == "architecture" then Design
    else if word == "implementation" || word == "implement" then Implementation
    else if word == "bugfix" || word == "bug_fix" || word == "debug" then BugFix
    else if word == "refactor" || word == "refactoring" then Refactor
    else if word == "testing" || word == "test" || word == "tests" then TaskType.Testing
    else if word == "validation" || word == "validate" then Validation
    else if word == "documentation" || word == "docs" then TaskType.Documentation
    else if word == "review" then Review
    else General
  }

  function ParseTaskType(raw: string): TaskType {
    TypeNamed(Lowercase(Trim(raw)))
  }

  function RiskFor(t: TaskType): Risk {
    match t
    case Inspection => ReadOnly
    case Research => ReadOnly
    case Design => ReadOnly
    case Review => ReadOnly
    case Documentation => Low
    case Testing => Low
    case Validation => Low
    case _ => Medium
  }

  /** A spec derived from its type, as the planners start from. */
  function NewSpec(description: string, t: TaskType): TaskSpec {
    TaskSpec(description, t, [], 5, ReadOnly, None)
  }

  function StripBullets(line: string): string {
    if line != [] && (line[0] == '-' || line[0] == '*' || line[0] as int == 0x2022) then StripBullets(line[1..])
    else line
  }

  predicate IsDigit(c: char) {
    '0' <= c <= '9'
  }

  function Digits(s: string): nat
    requires forall c :: c in s ==> IsDigit(c)
  {
    if s == [] then 0
    else
      assert IsDigit(s[|s| - 1]) by {
        assert s[|s| - 1] in s;
      }
      Digits(s[..|s| - 1]) * 10 + (s[|s| - 1] as int - '0' as int)
  }

  /** A machine-word number in decimal, with an optional plus sign. */
  function ParseNumber(s: string): Option<nat> {
    var digits := if s != [] && s[0] == '+' then s[1..] else s;
    if digits == [] || exists c :: c in digits && !IsDigit(c) then None
    else if Digits(digits) > 0xFFFF_FFFF_FFFF_FFFF then None
    else Some(Digits(digits))
  }

  /** The dependency numbers of a row that refer to one of the `known` rows before it, zero-based. */
  function References(parts: seq<string>, known: nat): (deps: seq<nat>)
    ensures forall d :: d in deps ==> d < known
  {
    if parts == [] then []
    else
      var n := ParseNumber(Trim(parts[0]));
      (if n.Some? && 1 <= n.value <= known then [n.value - 1] else []) + References(parts[1..], known)
  }

  datatype PlanRow = PlanRow(spec: TaskSpec, dependencies: seq<nat>)

  /** A row from its three fields, given how many rows were accepted before it. */
  function ReadFields(kindField: string, numbersField: string, textField: string, available: set<Capability>,
                      alphanumeric: char -> bool, known: nat): Option<PlanRow> {
    var description := Trim(textField);
    if Trim(kindField) == [] || !exists c :: c in description && alphanumeric(c) then None
    else
      var kind := ParseTaskType(kindField);
      var dependencies := if Trim(numbersField) == "-" then [] else References(Split(Trim(numbersField), ','), known);
      var spec := NewSpec(description, kind).(risk := RiskFor(kind));
      if available != {} && Missing(available, BaselineCapabilities(kind)) != {} then None
      else Some(PlanRow(spec, dependencies))
  }

  /** One line of the reply. */
  function ReadRow(raw: string, available: set<Capability>, alphanumeric: char -> bool, known: nat): Option<PlanRow> {
    var line := Trim(StripBullets(Trim(raw)));
    if line == [] || "```" <= line then None
    else
      var parts := SplitN(line, 3, '|');
      if |parts| != 3 then None else ReadFields(parts[0], parts[1], parts[2], available, alphanumeric, known)
  }

  /** What a row promises: it names earlier rows only, and something available can execute it. */
  ghost predicate RowFits(row: PlanRow, available: set<Capability>, known: nat) {
    && (forall d :: d in row.dependencies ==> d < known)
    && (available != {} ==> BaselineCapabilities(row.spec.taskType) <= available)
  }

  lemma ReadRowFits(raw: string, available: set<Capability>, alphanumeric: char -> bool, known: nat)
    ensures var row := ReadRow(raw, available, alphanumeric, known);
            row.Some? ==> RowFits(row.value, available, known)
  {
    hide ParseTaskType;
    hide Trim;
    hide StripBullets;
    hide SplitN;
    hide Split;
    hide BaselineCapabilities;
    hide RiskFor;
  }

  /** The accepted rows of a reply: a row's number is its place among the accepted ones. */
  function AcceptedRows(lines: seq<string>, available: set<Capability>, alphanumeric: char -> bool): seq<PlanRow> {
    if lines == [] then []
    else
      var before := AcceptedRows(lines[..|lines| - 1], available, alphanumeric);
      var row := ReadRow(lines[|lines| - 1], available, alphanumeric, |before|);
      if row.Some? then before + [row.value] else before
  }

  /** Rows refer to earlier rows only, and are executable by what is available. */
  ghost predicate BackwardRows(rows: seq<PlanRow>, available: set<Capability>) {
    forall i :: 0 <= i < |rows| ==> RowFits(rows[i], available, i)
  }

  lemma {:induction false} AcceptedAreBackward(lines: seq<string>, available: set<Capability>,
                                               alphanumeric: char -> bool)
    ensures BackwardRows(AcceptedRows(lines, available, alphanumeric), available)
  {
    if lines != [] {
      hide ReadRow;
      hide RowFits;
      var before := AcceptedRows(lines[..|lines| - 1], available, alphanumeric);
      AcceptedAreBackward(lines[..|lines| - 1], available, alphanumeric);
      ReadRowFits(lines[|lines| - 1], available, alphanumeric, |before|);
    }
  }
}
