/** Writing a string as a TOML basic string, and reading one back (TOML v1.0.0, section "String"). */
module Toml {
  import opened Tasks

  /** The Unicode control characters. */
  predicate IsControl(c: char) {
    c as int <= 0x1F || 0x7F <= c as int <= 0x9F
  }

  function HexDigit(n: nat): char
    requires n < 16
  {
    if n < 10 then ('0' as int + n) as char else ('A' as int + n - 10) as char
  }

  function HexValue(c: char): Option<nat> {
    if '0' <= c <= '9' then Some(c as int - '0' as int)
    else if 'A' <= c <= 'F' then Some(c as int - 'A' as int + 10)
    else if 'a' <= c <= 'f' then Some(c as int - 'a' as int + 10)
    else None
  }

  function Hex4(n: nat): string
    requires n < 0x1_0000
  {
    [HexDigit(n / 0x1000), HexDigit(n / 0x100 % 0x10), HexDigit(n / 0x10 % 0x10), HexDigit(n % 0x10)]
  }

  // -------------------------------------------------------------------- writing

  function Escape(c: char): string {
    if c == '\"' then "\\\""
    else if c == '\\' then "\\\\"
    else if c == '\n' then "\\n"
    else if c == '\r' then "\\r"
    else if c == '\t' then "\\t"
    else if IsControl(c) then "\\u" + Hex4(c as int)
    else [c]
  }

  function Escaped(value: string): string {
    if value == [] then [] else Escape(value[0]) + Escaped(value[1..])
  }

  lemma {:induction false} EscapedConcat(a: string, b: string)
    ensures Escaped(a + b) == Escaped(a) + Escaped(b)
  {
    if a == [] {
      assert a + b == b;
    } else {
      assert (a + b)[1..] == a[1..] + b;
      EscapedConcat(a[1..], b);
      hide Escape;
    }
  }

  lemma Regroup(a: string, b: string, c: string)
    ensures a + b + c == a + (b + c)
  {
  }

  /** A basic string, escaped. */
  method TomlString(value: string) returns (out: string)
    ensures out == "\"" + Escaped(value) + "\""
  {
    out := "\"";
    var i := 0;
    assert value[..0] == [];
    while i < |value|
      invariant i <= |value|
      invariant out == "\"" + Escaped(value[..i])
    {
      assert value[..i + 1] == value[..i] + [value[i]];
      EscapedConcat(value[..i], [value[i]]);
      assert Escaped([value[i]]) == Escape(value[i]) by { hide Escape; }
      Regroup("\"", Escaped(value[..i]), Escape(value[i]));
      match value[i] {
        case '\"' => out := out + "\\\"";
        case '\\' => out := out + "\\\\";
        case '\n' => out := out + "\\n";
        case '\r' => out := out + "\\r";
        case '\t' => out := out + "\\t";
        case c =>
          out := out + if IsControl(c) then "\\u" + Hex4(c as int) else [c];
      }
      i := i + 1;
    }
    assert value[..i] == value;
    out := out + "\"";
  }

  // -------------------------------------------------------------------- reading

  /** A code point given by its hex digits; surrogates are not characters. */
  function CodePoint(n: nat): Option<char> {
    if n < 0xD800 || 0xE000 <= n < 0x11_0000 then Some(n as char) else None
  }

  function HexNumber(digits: string): Option<nat> {
    if digits == [] then Some(0)
    else
      var last, before := HexValue(digits[|digits| - 1]), HexNumber(digits[..|digits| - 1]);
      if last.None? || before.None? then None else Some(before.value * 16 + last.value)
  }

  function Escapee(digits: string): Option<char> {
    var n := HexNumber(digits);
    if n.None? then None else CodePoint(n.value)
  }

  /** One character of a basic string's contents and how much text it took; none at an
      unescaped quote or where the text is not well formed. */
  function ReadOne(s: string): Option<(char, nat)>
    requires s != []
    ensures ReadOne(s).Some? ==> 0 < ReadOne(s).value.1 <= |s|
  {
    var c := s[0];
    if c == '\"' || (IsControl(c) && c != '\t' && c as int <= 0x7F) then None
    else if c != '\\' then Some((c, 1))
    else if |s| < 2 then None
    else
      match s[1]
      case 'b' => Some((8 as char, 2))
      case 't' => Some(('\t', 2))
      case 'n' => Some(('\n', 2))
      case 'f' => Some((12 as char, 2))
      case 'r' => Some(('\r', 2))
      case '\"' => Some(('\"', 2))
      case '\\' => Some(('\\', 2))
      case 'u' =>
        var e := if |s| < 6 then None else Escapee(s[2..6]);
        if e.None? then None else Some((e.value, 6))
      case 'U' =>
        var e := if |s| < 10 then None else Escapee(s[2..10]);
        if e.None? then None else Some((e.value, 10))
      case _ => None
  }

  /** The contents up to the closing quote, and what follows it. */
  function ReadContents(s: string): Option<(string, string)>
    decreases |s|
  {
    if s == [] then None
    else if s[0] == '\"' then Some(([], s[1..]))
    else
      var one := ReadOne(s);
      if one.None? then None
      else
        var rest := ReadContents(s[one.value.1..]);
        if rest.None? then None else Some(([one.value.0] + rest.value.0, rest.value.1))
  }

  /** A basic string at the start of `s`: its value, and what follows it. */
  function ReadBasicString(s: string): Option<(string, string)> {
    if s == [] || s[0] != '\"' then None else ReadContents(s[1..])
  }

  lemma HexDigitReads(n: nat)
    requires n < 16
    ensures HexValue(HexDigit(n)) == Some(n) && HexDigit(n) != '\"' && HexDigit(n) != '\\' && !IsControl(HexDigit(n))
  {
  }

  lemma HexNumberGrows(digits: string, n: nat, d: nat)
    requires HexNumber(digits) == Some(n) && d < 16
    ensures HexNumber(digits + [HexDigit(d)]) == Some(n * 16 + d)
  {
    HexDigitReads(d);
    hide HexDigit; hide HexValue;
    var more := digits + [HexDigit(d)];
    assert more[|more| - 1] == HexDigit(d) && more[..|more| - 1] == digits;
  }

  lemma Hex4Reads(n: nat)
    requires n < 0x1_0000
    ensures HexNumber(Hex4(n)) == Some(n)
  {
    var a, b, c, d := n / 0x1000, n / 0x100 % 0x10, n / 0x10 % 0x10, n % 0x10;
    HexNumberGrows([], 0, a);
    HexNumberGrows([] + [HexDigit(a)], a, b);
    HexNumberGrows([] + [HexDigit(a)] + [HexDigit(b)], a * 16 + b, c);
    HexNumberGrows([] + [HexDigit(a)] + [HexDigit(b)] + [HexDigit(c)], (a * 16 + b) * 16 + c, d);
    hide HexDigit; hide HexNumber;
    assert Hex4(n) == [] + [HexDigit(a)] + [HexDigit(b)] + [HexDigit(c)] + [HexDigit(d)];
    assert ((a * 16 + b) * 16 + c) * 16 + d == n by { Digits(n); }
  }

  lemma Digits(n: nat)
    requires n < 0x1_0000
    ensures ((n / 0x1000 * 16 + n / 0x100 % 0x10) * 16 + n / 0x10 % 0x10) * 16 + n % 0x10 == n
  {
  }

  /** An escaped character reads back as the character, and takes exactly its own text. */
  lemma EscapeReads(c: char, rest: string)
    ensures ReadOne(Escape(c) + rest) == Some((c, |Escape(c)|)) && Escape(c)[0] != '\"'
  {
    var s := Escape(c) + rest;
    if c != '\"' && c != '\\' && c != '\n' && c != '\r' && c != '\t' && IsControl(c) {
      Hex4Reads(c as int);
      assert s[2..6] == Hex4(c as int);
    }
  }

  /** Escaping and reading back is the identity, whatever follows: the value cannot close its
      own quotes, and nothing after them is taken for part of it. */
  lemma {:induction false} EscapedReads(value: string, rest: string)
    ensures ReadContents(Escaped(value) + ("\"" + rest)) == Some((value, rest))
  {
    var s := Escaped(value) + ("\"" + rest);
    if value == [] {
      assert s == "\"" + rest && s[1..] == rest;
    } else {
      var first, more := Escape(value[0]), Escaped(value[1..]) + ("\"" + rest);
      assert s == first + more;
      EscapeReads(value[0], more);
      EscapedReads(value[1..], rest);
      hide Escape; hide Escaped; hide ReadOne;
      assert s[|first|..] == more && s[0] == first[0];
      assert [value[0]] + value[1..] == value;
    }
  }

  lemma TomlStringRoundTrip(value: string, rest: string)
    ensures ReadBasicString("\"" + Escaped(value) + "\"" + rest) == Some((value, rest))
  {
    EscapedReads(value, rest);
    hide Escaped; hide ReadContents;
    var s := "\"" + Escaped(value) + "\"" + rest;
    assert s[1..] == Escaped(value) + ("\"" + rest);
  }

  // ------------------------------------------------------------- unescaped quotes

  /** Where quotes stand that no backslash takes, reading from left to right. */
  function UnescapedQuotes(s: string, at: nat): seq<nat>
    decreases |s|
  {
    if s == [] then []
    else if s[0] == '\\' then (if |s| < 2 then [] else UnescapedQuotes(s[2..], at + 2))
    else (if s[0] == '\"' then [at] else []) + UnescapedQuotes(s[1..], at + 1)
  }

  predicate Quiet(s: string) {
    forall c :: c in s ==> c != '\"' && c != '\\'
  }

  lemma {:induction false} QuietIsPassed(s: string, rest: string, at: nat)
    requires Quiet(s)
    ensures UnescapedQuotes(s + rest, at) == UnescapedQuotes(rest, at + |s|)
    decreases |s|
  {
    if s == [] {
      assert s + rest == rest;
    } else {
      assert s[0] in s && forall c :: c in s[1..] ==> c in s;
      assert (s + rest)[1..] == s[1..] + rest;
      QuietIsPassed(s[1..], rest, at + 1);
    }
  }

  lemma EscapeIsPassed(c: char, rest: string, at: nat)
    ensures UnescapedQuotes(Escape(c) + rest, at) == UnescapedQuotes(rest, at + |Escape(c)|)
  {
    var e := Escape(c);
    var s := e + rest;
    if e[0] == '\\' {
      var tail := e[2..];
      assert s[2..] == tail + rest;
      TailIsQuiet(c);
      QuietIsPassed(tail, rest, at + 2);
    } else {
      assert s[1..] == rest;
    }
  }

  lemma TailIsQuiet(c: char)
    ensures Escape(c)[0] == '\\' ==> |Escape(c)| >= 2 && Quiet(Escape(c)[2..])
  {
    if c != '\"' && c != '\\' && c != '\n' && c != '\r' && c != '\t' && IsControl(c) {
      var n := c as int;
      HexDigitReads(n / 0x1000);
      HexDigitReads(n / 0x100 % 0x10);
      HexDigitReads(n / 0x10 % 0x10);
      HexDigitReads(n % 0x10);
      assert Escape(c)[2..] == Hex4(n);
    }
  }

  lemma {:induction false} EscapedIsPassed(value: string, rest: string, at: nat)
    ensures UnescapedQuotes(Escaped(value) + rest, at) == UnescapedQuotes(rest, at + |Escaped(value)|)
  {
    if value == [] {
      assert Escaped(value) + rest == rest;
    } else {
      var first, more := Escape(value[0]), Escaped(value[1..]);
      assert Escaped(value) + rest == first + (more + rest);
      EscapeIsPassed(value[0], more + rest, at);
      EscapedIsPassed(value[1..], rest, at + |first|);
    }
  }

  /** The only unescaped quotes of a written string are its first and last characters. */
  lemma OnlyTheEndsAreQuotes(value: string)
    ensures var s := "\"" + Escaped(value) + "\""; UnescapedQuotes(s, 0) == [0, |s| - 1]
  {
    var s := "\"" + Escaped(value) + "\"";
    assert s[1..] == Escaped(value) + "\"";
    EscapedIsPassed(value, "\"", 1);
    hide Escaped;
    assert "\""[1..] == "";
    assert UnescapedQuotes("\"", 1 + |Escaped(value)|) == [1 + |Escaped(value)|];
  }

  /** And it is one line: no control character is left in it. */
  lemma {:induction false} WrittenOnOneLine(value: string)
    ensures forall c :: c in Escaped(value) ==> !IsControl(c)
  {
    if value != [] {
      WrittenOnOneLine(value[1..]);
      EscapeIsVisible(value[0]);
      hide Escape;
    }
  }

  lemma EscapeIsVisible(c: char)
    ensures forall d :: d in Escape(c) ==> !IsControl(d)
  {
    if c != '\"' && c != '\\' && c != '\n' && c != '\r' && c != '\t' && IsControl(c) {
      var n := c as int;
      HexDigitReads(n / 0x1000);
      HexDigitReads(n / 0x100 % 0x10);
      HexDigitReads(n / 0x10 % 0x10);
      HexDigitReads(n % 0x10);
    }
  }

  // ------------------------------------------------------------- the config entry

  predicate IsPlainId(id: string) {
    && id != [] && |id| <= 64
    && forall c :: c in id ==> 'a' <= c <= 'z' || 'A' <= c <= 'Z' || '0' <= c <= '9' || c == '-' || c == '_'
  }

  function EntryHead(id: string): string {
    "\n[agents." + id + "]\nprotocol = \"acp\"\ncommand = "
  }

  /** The entry launching `command`, or a refusal. */
  method ConfigEntry(id: string, command: string) returns (entry: Option<string>)
    ensures entry == if IsPlainId(id) then Some(EntryHead(id) + ("\"" + Escaped(command) + "\"") + "\n") else None
  {
    if !IsPlainId(id) {
      return None;
    }
    var value := TomlString(command);
    entry := Some(EntryHead(id) + value + "\n");
  }

  /** Whatever the command, the entry's own lines are all there is: the value reads back as the
      command with just the line's end after it, and neither it nor the id adds a line. */
  lemma EntryHoldsOnlyTheCommand(id: string, command: string)
    requires IsPlainId(id)
    ensures var entry := EntryHead(id) + ("\"" + Escaped(command) + "\"") + "\n";
            ReadBasicString(entry[|EntryHead(id)|..]) == Some((command, "\n"))
    ensures forall c :: c in id || c in Escaped(command) ==> c != '\n' && c != '\r'
  {
    var head, value := EntryHead(id), "\"" + Escaped(command) + "\"";
    hide EntryHead;
    assert (head + value + "\n")[|head|..] == value + "\n";
    TomlStringRoundTrip(command, "\n");
    WrittenOnOneLine(command);
  }

  /** Behind the line end the header names one table, the one called `id` within the agents: its only
      bracket that closes is its last character, and its only dot is the one in front of the id. */
  lemma HeaderNamesTheId(id: string)
    requires IsPlainId(id)
    ensures var header := "[agents." + id + "]";
            && "\n" + header <= EntryHead(id)
            && (forall i :: 0 <= i < |header| ==> (header[i] == ']' <==> i == |header| - 1))
            && (forall i :: 0 <= i < |header| ==> (header[i] == '.' <==> i == 7))
            && (forall i :: 0 <= i < |header| ==> (header[i] == '[' <==> i == 0))
            && forall i :: 0 <= i < |header| ==> header[i] !in "\"'#= \t\\\n\r"
  {
    var header := "[agents." + id + "]";
    forall i | 8 <= i < |header| - 1
      ensures header[i] in id
    {
      assert header[i] == id[i - 8];
    }
  }
}
