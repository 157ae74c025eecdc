/** Token accounting: saturating 64-bit counters that are merged along attempts and tasks. */
module Tokens {
  import opened Dag

  const MAX_U64: nat := 0xFFFF_FFFF_FFFF_FFFF

  type u64 = n: nat | n <= MAX_U64

  datatype TokenUsage = TokenUsage(input: u64, output: u64, cached: u64, reported: bool) {
    function Total(): (n: u64)
      ensures n == MAX_U64 <==> input + output >= MAX_U64
    {
      SaturatingAdd(input, output)
    }

    /** Merging two records; the result is reported only if both were. */
    function Merge(other: TokenUsage): TokenUsage {
      TokenUsage(SaturatingAdd(input, other.input), SaturatingAdd(output, other.output),
                 SaturatingAdd(cached, other.cached), reported && other.reported)
    }
  }

  function SaturatingAdd(a: u64, b: u64): u64 {
    if a + b > MAX_U64 then MAX_U64 else a + b
  }

  const NOTHING := TokenUsage(0, 0, 0, true)

  /** The left fold the program uses, starting from "nothing, reported". */
  function Sum(s: seq<TokenUsage>): TokenUsage {
    if s == [] then NOTHING else Sum(s[..|s| - 1]).Merge(s[|s| - 1])
  }

  /** Saturation does not disturb associativity, and nothing is a unit. */
  lemma MergeIsCommutativeMonoid(a: TokenUsage, b: TokenUsage, c: TokenUsage)
    ensures a.Merge(b).Merge(c) == a.Merge(b.Merge(c))
    ensures a.Merge(b) == b.Merge(a)
    ensures NOTHING.Merge(a) == a == a.Merge(NOTHING)
  {
  }

  /** Merging one usage per key, key by key. */
  function SumOver(f: map<TaskId, TokenUsage>, ids: seq<TaskId>): TokenUsage
    requires forall i :: 0 <= i < |ids| ==> ids[i] in f
  {
    if ids == [] then NOTHING else SumOver(f, ids[..|ids| - 1]).Merge(f[ids[|ids| - 1]])
  }

  lemma {:induction false} SumOverConcat(f: map<TaskId, TokenUsage>, a: seq<TaskId>, b: seq<TaskId>)
    requires (forall i :: 0 <= i < |a| ==> a[i] in f) && forall i :: 0 <= i < |b| ==> b[i] in f
    ensures SumOver(f, a + b) == SumOver(f, a).Merge(SumOver(f, b))
  {
    if b == [] {
      assert a + b == a;
    } else {
      var n := |b| - 1;
      SumOverConcat(f, a, b[..n]);
      assert (a + b)[..|a + b| - 1] == a + b[..n];
      MergeIsCommutativeMonoid(SumOver(f, a), SumOver(f, b[..n]), f[b[n]]);
    }
  }

  lemma SumOverWithout(f: map<TaskId, TokenUsage>, a: seq<TaskId>, x: TaskId, b: seq<TaskId>)
    requires x in f && (forall i :: 0 <= i < |a| ==> a[i] in f) && forall i :: 0 <= i < |b| ==> b[i] in f
    ensures SumOver(f, a + [x] + b) == SumOver(f, a + b).Merge(f[x])
  {
    SumOverConcat(f, a + [x], b);
    SumOverConcat(f, a, b);
    assert (a + [x])[..|a|] == a;
    MergeIsCommutativeMonoid(SumOver(f, a), f[x], SumOver(f, b));
    MergeIsCommutativeMonoid(f[x], SumOver(f, b), NOTHING);
    MergeIsCommutativeMonoid(SumOver(f, a), SumOver(f, b), f[x]);
  }

  lemma ListsLess(s: seq<TaskId>, keys: set<TaskId>, k: nat)
    requires Lists(s, keys) && k < |s|
    ensures Lists(s[..k] + s[k + 1..], keys - {s[k]})
  {
    var rest := s[..k] + s[k + 1..];
    assert forall i :: 0 <= i < |rest| ==> rest[i] == s[if i < k then i else i + 1];
    forall t | t in keys && t != s[k]
      ensures t in rest
    {
      var i :| 0 <= i < |s| && s[i] == t;
      assert rest[if i < k then i else i - 1] == t;
    }
  }

  /** The total does not depend on the order the keys are visited in. */
  lemma {:induction false} SumOverIsOrderFree(f: map<TaskId, TokenUsage>, a: seq<TaskId>, b: seq<TaskId>,
                                              keys: set<TaskId>)
    requires Lists(a, keys) && Lists(b, keys) && keys <= f.Keys
    ensures SumOver(f, a) == SumOver(f, b)
  {
    if a == [] {
      assert keys == {};
      NoRepeatsFits(b, keys);
    } else {
      var n := |a| - 1;
      assert a == a[..n] + [a[n]];
      assert a[n] in b;
      var k :| 0 <= k < |b| && b[k] == a[n];
      assert b == b[..k] + [b[k]] + b[k + 1..];
      SumOverWithout(f, b[..k], b[k], b[k + 1..]);
      ListsLess(b, keys, k);
      ListsLess(a, keys, n);
      assert a[..n] + a[n + 1..] == a[..n];
      hide Lists;
      SumOverIsOrderFree(f, a[..n], b[..k] + b[k + 1..], keys - {a[n]});
    }
  }
}
