/** Strings as the program's standard library treats them: trimming, splitting, joining. */
module Text {
  /** The characters with the Unicode White_Space property. */
  predicate IsWhitespace(c: char) {
    var n := c as int;
    || 0x9 <= n <= 0xD || n == 0x20 || n == 0x85 || n == 0xA0 || n == 0x1680
    || 0x2000 <= n <= 0x200A || n == 0x2028 || n == 0x2029 || n == 0x202F || n == 0x205F || n == 0x3000
  }

  function TrimStart(s: string): string {
    if s != [] && IsWhitespace(s[0]) then TrimStart(s[1..]) else s
  }

  function TrimEnd(s: string): string {
    if s != [] && IsWhitespace(s[|s| - 1]) then TrimEnd(s[..|s| - 1]) else s
  }

  function Trim(s: string): string {
    TrimEnd(TrimStart(s))
  }

  /** Nothing to trim: empty, or beginning and ending with something visible. */
  predicate Trimmed(s: string) {
    s == [] || (!IsWhitespace(s[0]) && !IsWhitespace(s[|s| - 1]))
  }

  lemma {:induction false} TrimStartStarts(s: string)
    ensures TrimStart(s) == [] || !IsWhitespace(TrimStart(s)[0])
  {
    if s != [] && IsWhitespace(s[0]) {
      TrimStartStarts(s[1..]);
    }
  }

  lemma {:induction false} TrimEndEnds(s: string)
    ensures TrimEnd(s) == [] || !IsWhitespace(TrimEnd(s)[|TrimEnd(s)| - 1])
    ensures TrimEnd(s) <= s
  {
    if s != [] && IsWhitespace(s[|s| - 1]) {
      TrimEndEnds(s[..|s| - 1]);
    }
  }

  lemma TrimTrims(s: string)
    ensures Trimmed(Trim(s))
  {
    TrimStartStarts(s);
    TrimEndEnds(TrimStart(s));
  }

  /** What is trimmed off is whitespace at the two ends. */
  lemma {:induction false} TrimDropsTheEnds(s: string) returns (i: nat, j: nat)
    ensures i <= j <= |s| && Trim(s) == s[i..j]
    ensures forall k :: 0 <= k < i || j <= k < |s| ==> IsWhitespace(s[k])
  {
    if s != [] && IsWhitespace(s[0]) {
      i, j := TrimDropsTheEnds(s[1..]);
      assert forall k :: 1 <= k < |s| ==> s[k] == s[1..][k - 1];
      i, j := i + 1, j + 1;
    } else {
      i := 0;
      j := TrimEndStops(s);
    }
  }

  lemma {:induction false} TrimEndStops(s: string) returns (j: nat)
    ensures j <= |s| && TrimEnd(s) == s[..j] && forall k :: j <= k < |s| ==> IsWhitespace(s[k])
  {
    j := |s|;
    if s != [] && IsWhitespace(s[|s| - 1]) {
      j := TrimEndStops(s[..|s| - 1]);
      assert s[..|s| - 1][..j] == s[..j];
      assert forall k :: 0 <= k < |s| - 1 ==> s[k] == s[..|s| - 1][k];
    }
  }

  /** Trimming is the identity on trimmed strings, so trimming twice is trimming once. */
  lemma TrimIsIdempotent(s: string)
    ensures Trimmed(s) ==> Trim(s) == s
    ensures Trim(Trim(s)) == Trim(s)
  {
    TrimTrims(s);
  }

  function Join(parts: seq<string>, separator: string): string {
    if parts == [] then []
    else if |parts| == 1 then parts[0]
    else parts[0] + separator + Join(parts[1..], separator)
  }

  /** Lines that are trimmed and visible make, joined, one trimmed and visible text. */
  lemma {:induction false} JoinIsTrimmed(parts: seq<string>)
    requires forall p :: p in parts ==> p != [] && Trimmed(p)
    ensures Trimmed(Join(parts, "\n"))
    ensures parts != [] ==> Join(parts, "\n") != []
  {
    if |parts| == 1 {
      assert parts[0] in parts;
    } else if parts != [] {
      var rest := Join(parts[1..], "\n");
      assert forall p :: p in parts[1..] ==> p in parts;
      JoinIsTrimmed(parts[1..]);
      assert parts[0] in parts && parts[1..] != [];
      assert Join(parts, "\n")[0] == parts[0][0];
      assert Join(parts, "\n")[|Join(parts, "\n")| - 1] == rest[|rest| - 1];
    }
  }

  /** Where `c` first occurs, or the length. */
  function IndexOf(s: string, c: char): (i: nat)
    ensures i <= |s|
    ensures forall j :: 0 <= j < i ==> s[j] != c
    ensures i < |s| ==> s[i] == c
  {
    if s == [] || s[0] == c then 0 else 1 + IndexOf(s[1..], c)
  }

  function Split(s: string, c: char): (parts: seq<string>)
    ensures parts != []
    decreases |s|
  {
    var i := IndexOf(s, c);
    if i == |s| then [s] else [s[..i]] + Split(s[i + 1..], c)
  }

  /** At most `n` parts; the last one keeps the separators it contains. */
  function SplitN(s: string, n: nat, c: char): seq<string>
    decreases n
  {
    if n == 0 then []
    else
      var i := IndexOf(s, c);
      if n == 1 || i == |s| then [s] else [s[..i]] + SplitN(s[i + 1..], n - 1, c)
  }

  function DropCarriageReturn(line: string): string {
    if line != [] && line[|line| - 1] == '\r' then line[..|line| - 1] else line
  }

  /** Lines without their terminators; a final terminator does not start another line. */
  function Lines(s: string): seq<string>
    decreases |s|
  {
    if s == [] then []
    else
      var i := IndexOf(s, '\n');
      if i == |s| then [s] else [DropCarriageReturn(s[..i])] + Lines(s[i + 1..])
  }

  function MapText(s: string, f: char -> char): string {
    seq(|s|, i requires 0 <= i < |s| => f(s[i]))
  }

  function ToLowerAscii(c: char): char {
    if 'A' <= c <= 'Z' then ((c as int - 'A' as int) + 'a' as int) as char else c
  }

  function Lowercase(s: string): string {
    MapText(s, ToLowerAscii)
  }
}
