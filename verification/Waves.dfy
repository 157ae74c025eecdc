/** Waves over a fixed dependency relation: what one wave does to the statuses of a plan,
    and why neither the order in which its results are folded back nor the choice of the
    tasks admitted to it can change how the plan ends.

    A board gives every task its status. `good` is the fixed oracle: the tasks whose
    execution succeeds once they get to run. */
module Waves {
  import opened Dag

  datatype TaskStatus = Pending | Ready | Running | Completed | Failed | Skipped | Cancelled {
    predicate Terminal() {
      Completed? || Failed? || Skipped? || Cancelled?
    }
  }

  type Board = map<TaskId, TaskStatus>

  predicate Startable(s: TaskStatus) {
    s.Pending? || s.Ready?
  }

  /** Startable, with every dependency known and completed. */
  predicate IsReady(e: Edges, b: Board, t: TaskId) {
    && t in e && t in b && Startable(b[t])
    && forall d :: d in e[t] ==> d in b && b[d].Completed?
  }

  predicate Complete(b: Board) {
    forall t :: t in b ==> b[t].Terminal()
  }

  // ------------------------------------------------------------------- cascade

  /** A chain of unfinished tasks leading down to a member of `roots`. */
  ghost predicate DoomPath(e: Edges, b: Board, roots: set<TaskId>, p: seq<TaskId>) {
    && |p| >= 2
    && (forall i :: 0 <= i < |p| - 1 ==> p[i] in e && p[i] in b && !b[p[i]].Terminal() && p[i + 1] in e[p[i]])
    && p[|p| - 1] in roots
  }

  /** `t` is unfinished and waits, through unfinished tasks only, for a member of `roots`. */
  ghost predicate Doomed(e: Edges, b: Board, roots: set<TaskId>, t: TaskId) {
    exists p :: DoomPath(e, b, roots, p) && p[0] == t
  }

  ghost function DoomedSet(e: Edges, b: Board, roots: set<TaskId>): set<TaskId> {
    set t | t in b && Doomed(e, b, roots, t)
  }

  function Skip(b: Board, ts: set<TaskId>): (r: Board)
    ensures r.Keys == b.Keys
  {
    map t | t in b :: if t in ts then Skipped else b[t]
  }

  lemma DoomedDirectly(e: Edges, b: Board, roots: set<TaskId>, t: TaskId, d: TaskId)
    requires t in e && t in b && !b[t].Terminal() && d in e[t]
    requires d in roots || Doomed(e, b, roots, d)
    ensures Doomed(e, b, roots, t)
  {
    if d in roots {
      assert DoomPath(e, b, roots, [t, d]);
    } else {
      var p :| DoomPath(e, b, roots, p) && p[0] == d;
      assert DoomPath(e, b, roots, [t] + p);
    }
  }

  /** A set closed under "waits for a root or a member" holds everything doomed. */
  lemma {:induction false} DoomIsLeast(e: Edges, b: Board, roots: set<TaskId>, closed: set<TaskId>, p: seq<TaskId>)
    requires forall t, d :: t in b && t in e && !b[t].Terminal() && d in e[t] && (d in roots || d in closed) ==>
               t in closed
    requires DoomPath(e, b, roots, p)
    ensures p[0] in closed
  {
    assert p[1] in e[p[0]];
    if |p| > 2 {
      assert DoomPath(e, b, roots, p[1..]);
      DoomIsLeast(e, b, roots, closed, p[1..]);
    }
  }

  // ---------------------------------------------------------------------- waves

  function VerdictOf(good: iset<TaskId>, t: TaskId): TaskStatus {
    if t in good then Completed else Failed
  }

  /** The members of a wave whose execution fails. */
  ghost function Losers(wave: set<TaskId>, good: iset<TaskId>): set<TaskId> {
    set w | w in wave && w !in good
  }

  /** Fold one result back: its verdict, and for a failure the cascade behind it. */
  ghost function FoldOne(e: Edges, b: Board, good: iset<TaskId>, w: TaskId): (r: Board)
    requires w in b
    ensures r.Keys == b.Keys
  {
    var b1 := b[w := VerdictOf(good, w)];
    if w in good then b1 else Skip(b1, DoomedSet(e, b1, {w}))
  }

  ghost function FoldAll(e: Edges, b: Board, good: iset<TaskId>, ws: seq<TaskId>): (r: Board)
    requires forall w :: w in ws ==> w in b
    ensures r.Keys == b.Keys
  {
    if ws == [] then b else FoldOne(e, FoldAll(e, b, good, ws[..|ws| - 1]), good, ws[|ws| - 1])
  }

  /** A wave seen as one step: members get their verdict, whatever waits for a failed member is skipped. */
  ghost function AfterWave(e: Edges, b: Board, good: iset<TaskId>, wave: set<TaskId>): (r: Board)
    ensures r.Keys == b.Keys
  {
    var skipped := DoomedSet(e, b, Losers(wave, good));
    map t | t in b :: if t in wave then VerdictOf(good, t) else if t in skipped then Skipped else b[t]
  }

  ghost predicate AllReady(e: Edges, b: Board, wave: set<TaskId>) {
    forall w :: w in wave ==> IsReady(e, b, w)
  }

  /** No task on the way down to a failed member is itself a member. */
  lemma DoomStep(e: Edges, b: Board, wave: set<TaskId>, roots: set<TaskId>, p: seq<TaskId>, i: nat)
    requires AllReady(e, b, wave) && roots <= wave && DoomPath(e, b, roots, p) && i < |p| - 1
    ensures p[i] !in wave
  {
    var d := p[i + 1];
    assert d in e[p[i]];
    assert d in wave || !b[d].Terminal();
    assert forall w :: w in wave ==> IsReady(e, b, w) && Startable(b[w]);
  }

  /** The cascade of one member of a wave never reaches another member: a member's
      dependencies are all completed. */
  lemma CascadeSparesWave(e: Edges, b: Board, wave: set<TaskId>, roots: set<TaskId>, w: TaskId)
    requires AllReady(e, b, wave) && w in wave && roots <= wave
    ensures !Doomed(e, b, roots, w)
  {
    forall p | DoomPath(e, b, roots, p)
      ensures p[0] != w
    {
      DoomStep(e, b, wave, roots, p, 0);
    }
  }

  /** A doom path stays one when roots are added, or when the statuses of other tasks change. */
  lemma DoomMonotone(e: Edges, b: Board, b': Board, roots: set<TaskId>, roots': set<TaskId>, p: seq<TaskId>)
    requires DoomPath(e, b, roots, p) && p[|p| - 1] in roots'
    requires forall i :: 0 <= i < |p| - 1 ==> p[i] in b' && !b'[p[i]].Terminal()
    ensures DoomPath(e, b', roots', p)
  {
  }

  /** Every task above a doomed one, along unfinished tasks, is doomed too. */
  lemma DoomExtends(e: Edges, b: Board, roots: set<TaskId>, p: seq<TaskId>, i: nat)
    requires |p| >= 2 && i < |p| - 1 && Doomed(e, b, roots, p[i])
    requires forall j :: 0 <= j < |p| - 1 ==> p[j] in e && p[j] in b && !b[p[j]].Terminal() && p[j + 1] in e[p[j]]
    ensures Doomed(e, b, roots, p[0])
    decreases i
  {
    if i > 0 {
      DoomedDirectly(e, b, roots, p[i - 1], p[i]);
      DoomExtends(e, b, roots, p, i - 1);
    }
  }

  /** Folding one more failed member into a wave skips exactly what the wave as a whole adds. */
  lemma FoldFailure(e: Edges, b: Board, good: iset<TaskId>, wave: set<TaskId>, w: TaskId, t: TaskId)
    requires AllReady(e, b, wave + {w}) && w !in wave && w !in good && t in b && t !in wave && t != w
    ensures var b1 := AfterWave(e, b, good, wave)[w := Failed];
            var later := Losers(wave + {w}, good);
            Doomed(e, b, later, t) <==> Doomed(e, b, Losers(wave, good), t) || Doomed(e, b1, {w}, t)
  {
    var failed := Losers(wave, good);
    var later := Losers(wave + {w}, good);
    var b1 := AfterWave(e, b, good, wave)[w := Failed];
    if p :| DoomPath(e, b, failed, p) && p[0] == t {
      DoomMonotone(e, b, b, failed, later, p);
    }
    if p :| DoomPath(e, b1, {w}, p) && p[0] == t {
      DoomMonotone(e, b1, b, {w}, later, p);
    }
    if p :| DoomPath(e, b, later, p) && p[0] == t && !Doomed(e, b, failed, t) {
      forall i | 0 <= i < |p| - 1
        ensures !b1[p[i]].Terminal()
      {
        DoomStep(e, b, wave + {w}, later, p, i);
        if Doomed(e, b, failed, p[i]) {
          DoomExtends(e, b, failed, p, i);
        }
      }
      if p[|p| - 1] != w {
        DoomMonotone(e, b, b, later, failed, p);
      }
      DoomMonotone(e, b, b1, later, {w}, p);
    }
  }

  lemma LastOf(ws: seq<TaskId>)
    requires NoRepeats(ws) && ws != []
    ensures var n := |ws| - 1; ToSet(ws) == ToSet(ws[..n]) + {ws[n]} && ws[n] !in ToSet(ws[..n])
    ensures NoRepeats(ws[..|ws| - 1]) && ws[|ws| - 1] in ws
    ensures forall w :: w in ws[..|ws| - 1] ==> w in ws
  {
    assert ws == ws[..|ws| - 1] + [ws[|ws| - 1]];
  }

  lemma FinishedIsNotDoomed(e: Edges, b: Board, roots: set<TaskId>, t: TaskId)
    requires t in b && b[t].Terminal()
    ensures !Doomed(e, b, roots, t)
  {
  }

  /** Folding one more result is a wave with one more member. */
  lemma FoldOneMore(e: Edges, b: Board, good: iset<TaskId>, wave: set<TaskId>, w: TaskId)
    requires w in b && w !in wave && wave <= b.Keys && AllReady(e, b, wave + {w})
    ensures FoldOne(e, AfterWave(e, b, good, wave), good, w) == AfterWave(e, b, good, wave + {w})
  {
    hide DoomPath;
    var b0 := AfterWave(e, b, good, wave);
    var l, r := FoldOne(e, b0, good, w), AfterWave(e, b, good, wave + {w});
    CascadeSparesWave(e, b, wave + {w}, Losers(wave, good), w);
    forall t | t in b
      ensures l[t] == r[t]
    {
      if w in good {
        assert Losers(wave + {w}, good) == Losers(wave, good);
      } else if t == w {
        FinishedIsNotDoomed(e, b0[w := Failed], {w}, w);
      } else if t in wave {
        FinishedIsNotDoomed(e, b0[w := Failed], {w}, t);
      } else {
        FoldFailure(e, b, good, wave, w, t);
      }
    }
  }

  /** The order in which the results of a wave are folded back does not matter. */
  lemma {:induction false} FoldOrderIrrelevant(e: Edges, b: Board, good: iset<TaskId>, ws: seq<TaskId>)
    requires NoRepeats(ws) && (forall w :: w in ws ==> w in b) && AllReady(e, b, ToSet(ws))
    ensures FoldAll(e, b, good, ws) == AfterWave(e, b, good, ToSet(ws))
  {
    if ws == [] {
      assert forall t :: !Doomed(e, b, {}, t);
    } else {
      var n := |ws| - 1;
      LastOf(ws);
      FoldOrderIrrelevant(e, b, good, ws[..n]);
      FoldOneMore(e, b, good, ToSet(ws[..n]), ws[n]);
    }
  }

  // -------------------------------------------------------------- how a plan ends

  /** Some task that `t` waits for, directly or not, would fail. */
  ghost predicate Hopeless(e: Edges, good: iset<TaskId>, t: TaskId) {
    exists p :: IsPath(e, p) && |p| >= 2 && p[0] == t && p[|p| - 1] !in good
  }

  /** The end of a task, read off the plan and the oracle alone. */
  ghost function FinalStatus(e: Edges, good: iset<TaskId>, t: TaskId): TaskStatus {
    if Hopeless(e, good, t) then Skipped else VerdictOf(good, t)
  }

  ghost predicate HasFailedAncestor(e: Edges, good: iset<TaskId>, t: TaskId) {
    exists p :: IsPath(e, p) && |p| >= 2 && p[0] == t && FinalStatus(e, good, p[|p| - 1]).Failed?
  }

  lemma JoinPaths(e: Edges, p: seq<TaskId>, q: seq<TaskId>)
    requires IsPath(e, p) && IsPath(e, q) && p[|p| - 1] == q[0]
    ensures IsPath(e, p + q[1..])
    ensures (p + q[1..])[|p + q[1..]| - 1] == q[|q| - 1]
  {
  }

  lemma {:induction false} FailedAncestorBelow(e: Edges, s: seq<TaskId>, good: iset<TaskId>, p: seq<TaskId>, i: nat)
    requires Closed(e) && Topological(e, s) && (forall t :: t in e ==> t in s)
    requires IsPath(e, p) && |p| >= 2 && i < |s| && p[|p| - 1] == s[i] && s[i] !in good
    ensures HasFailedAncestor(e, good, p[0])
    decreases i
  {
    if q :| IsPath(e, q) && |q| >= 2 && q[0] == s[i] && q[|q| - 1] !in good {
      JoinPaths(e, p, q);
      PathDescends(e, s, q, i);
      var k :| 0 <= k < i && s[k] == q[|q| - 1];
      FailedAncestorBelow(e, s, good, p + q[1..], k);
    } else {
      assert FinalStatus(e, good, s[i]).Failed?;
    }
  }

  /** A task ends skipped exactly when something it waits for, directly or not, ends failed. */
  lemma SkippedIffFailedAncestor(e: Edges, good: iset<TaskId>, t: TaskId)
    requires Closed(e) && Acyclic(e)
    ensures FinalStatus(e, good, t).Skipped? <==> HasFailedAncestor(e, good, t)
  {
    var s := ExtendTopological(e, []);
    if p :| IsPath(e, p) && |p| >= 2 && p[0] == t && p[|p| - 1] !in good {
      var i :| 0 <= i < |s| && s[i] == p[|p| - 1];
      FailedAncestorBelow(e, s, good, p, i);
    }
    if p :| IsPath(e, p) && |p| >= 2 && p[0] == t && FinalStatus(e, good, p[|p| - 1]).Failed? {
      assert p[|p| - 1] !in good;
    }
  }

  // --------------------------------------------------------------- the invariant

  /** What holds between waves: finished tasks ended as they must, and no unfinished task
      waits for one that failed or was skipped. Exempt are the `replaced` tasks: those a
      re-planning took out of the plan. */
  ghost predicate Settling(e: Edges, good: iset<TaskId>, replaced: set<TaskId>, b: Board) {
    && b.Keys == e.Keys
    && (forall t :: t in e && b[t].Terminal() && t !in replaced ==> b[t] == FinalStatus(e, good, t))
    && (forall t :: t in replaced ==> t in e && b[t].Terminal() && !b[t].Completed? && t !in good)
    && (forall t :: t in e && !b[t].Terminal() ==> Startable(b[t]))
    && (forall t, d :: t in e && d in e[t] && d in e && !b[t].Terminal() ==> Unobstructed(replaced, b, d))
  }

  ghost predicate Unobstructed(replaced: set<TaskId>, b: Board, d: TaskId)
    requires d in b
  {
    !b[d].Terminal() || b[d].Completed? || d in replaced
  }

  lemma ReadyIsNotHopeless(e: Edges, good: iset<TaskId>, replaced: set<TaskId>, b: Board, t: TaskId)
    requires Settling(e, good, replaced, b) && IsReady(e, b, t)
    ensures !Hopeless(e, good, t)
  {
    forall p | IsPath(e, p) && |p| >= 2 && p[0] == t
      ensures p[|p| - 1] in good
    {
      assert p[1] in e[t];
      assert FinalStatus(e, good, p[1]).Completed?;
      if |p| > 2 {
        assert IsPath(e, p[1..]);
      }
    }
  }

  lemma {:induction false} DoomedIsHopeless(e: Edges, good: iset<TaskId>, b: Board, roots: set<TaskId>, t: TaskId)
    requires Closed(e) && Doomed(e, b, roots, t) && (forall r :: r in roots ==> r !in good)
    ensures Hopeless(e, good, t)
  {
    var p :| DoomPath(e, b, roots, p) && p[0] == t;
    assert p[|p| - 1] in e by {
      assert p[|p| - 2 + 1] in e[p[|p| - 2]];
    }
    assert IsPath(e, p);
  }

  /** Every wave keeps the invariant, whichever ready tasks it was made of. */
  lemma WaveKeepsSettling(e: Edges, good: iset<TaskId>, replaced: set<TaskId>, b: Board, wave: set<TaskId>)
    requires Closed(e) && Settling(e, good, replaced, b) && AllReady(e, b, wave)
    ensures Settling(e, good, replaced, AfterWave(e, b, good, wave))
  {
    var after := AfterWave(e, b, good, wave);
    var failed := Losers(wave, good);
    forall t | t in e && after[t].Terminal() && t !in replaced
      ensures after[t] == FinalStatus(e, good, t)
    {
      if t in wave {
        ReadyIsNotHopeless(e, good, replaced, b, t);
      } else if !b[t].Terminal() {
        DoomedIsHopeless(e, good, b, failed, t);
      }
    }
    forall t, d | t in e && d in e[t] && d in e && !after[t].Terminal()
      ensures Unobstructed(replaced, after, d)
    {
      if d in failed || Doomed(e, b, failed, d) {
        DoomedDirectly(e, b, failed, t, d);
      }
    }
  }

  /** What waits for a task that was taken out of the plan never becomes ready. */
  lemma BehindReplacedNeverReady(e: Edges, good: iset<TaskId>, replaced: set<TaskId>, b: Board, t: TaskId, d: TaskId)
    requires Settling(e, good, replaced, b) && d in replaced && t in e && d in e[t]
    ensures !IsReady(e, b, t)
  {
  }

  /** With nothing ready, every unfinished task waits, through unfinished tasks, for a replaced one. */
  lemma StalledBehindReplaced(e: Edges, good: iset<TaskId>, replaced: set<TaskId>, b: Board)
    requires Closed(e) && Acyclic(e) && Settling(e, good, replaced, b)
    requires forall t :: !IsReady(e, b, t)
    ensures forall t :: t in b && !b[t].Terminal() ==> Doomed(e, b, replaced, t)
  {
    var open := set t | t in e && !b[t].Terminal() && !Doomed(e, b, replaced, t);
    if open != {} {
      forall t | t in open
        ensures WaitsIn(e, open, t)
      {
        assert !IsReady(e, b, t);
        var d :| d in e[t] && !b[d].Completed?;
        assert Unobstructed(replaced, b, d);
        if d in replaced || Doomed(e, b, replaced, d) {
          DoomedDirectly(e, b, replaced, t, d);
        }
        assert d in open;
      }
      StuckSetHasCycle(e, open);
    }
    forall t | t in b && !b[t].Terminal()
      ensures Doomed(e, b, replaced, t)
    {
      assert t !in open;
    }
  }

  /** While anything is unfinished, something is ready: a validated plan nothing was taken out
      of never stalls. */
  lemma SomethingIsReady(e: Edges, good: iset<TaskId>, b: Board)
    requires Closed(e) && Acyclic(e) && Settling(e, good, {}, b) && !Complete(b)
    ensures exists t :: IsReady(e, b, t)
  {
    var t :| t in b && !b[t].Terminal();
    assert !Doomed(e, b, {}, t);
    if forall t :: !IsReady(e, b, t) {
      StalledBehindReplaced(e, good, {}, b);
    }
  }

  // ------------------------------------------------------------------------ runs

  ghost function BoardAfter(e: Edges, good: iset<TaskId>, b: Board, waves: seq<set<TaskId>>): (r: Board)
    ensures r.Keys == b.Keys
  {
    if waves == [] then b
    else AfterWave(e, BoardAfter(e, good, b, waves[..|waves| - 1]), good, waves[|waves| - 1])
  }

  /** Any succession of non-empty waves of ready tasks: every parallelism limit, every
      priority rule and every admission choice produces one of these. */
  ghost predicate IsRun(e: Edges, good: iset<TaskId>, b: Board, waves: seq<set<TaskId>>) {
    forall i {:trigger WaveAllowed(e, good, b, waves, i)} :: 0 <= i < |waves| ==> WaveAllowed(e, good, b, waves, i)
  }

  ghost predicate WaveAllowed(e: Edges, good: iset<TaskId>, b: Board, waves: seq<set<TaskId>>, i: nat)
    requires i < |waves|
  {
    waves[i] != {} && AllReady(e, BoardAfter(e, good, b, waves[..i]), waves[i])
  }

  lemma RunPrefix(e: Edges, good: iset<TaskId>, b: Board, waves: seq<set<TaskId>>, n: nat)
    requires IsRun(e, good, b, waves) && n <= |waves|
    ensures IsRun(e, good, b, waves[..n])
  {
    forall i | 0 <= i < n
      ensures WaveAllowed(e, good, b, waves[..n], i)
    {
      assert waves[..n][..i] == waves[..i];
      assert WaveAllowed(e, good, b, waves, i);
    }
  }

  lemma {:induction false} RunKeepsSettling(e: Edges, good: iset<TaskId>, b: Board, waves: seq<set<TaskId>>)
    requires Closed(e) && Settling(e, good, {}, b) && IsRun(e, good, b, waves)
    ensures Settling(e, good, {}, BoardAfter(e, good, b, waves))
  {
    if waves != [] {
      var n := |waves| - 1;
      RunPrefix(e, good, b, waves, n);
      RunKeepsSettling(e, good, b, waves[..n]);
      assert WaveAllowed(e, good, b, waves, n);
      WaveKeepsSettling(e, good, {}, BoardAfter(e, good, b, waves[..n]), waves[n]);
    }
  }

  lemma FreshBoardIsSettling(e: Edges, good: iset<TaskId>, b: Board)
    requires b.Keys == e.Keys && forall t :: t in b ==> b[t].Pending?
    ensures Settling(e, good, {}, b)
  {
  }

  /** Confluence: two runs of the same plan under the same oracle that finish it end alike,
      each task as the plan and the oracle alone dictate. */
  lemma RunsAgree(e: Edges, good: iset<TaskId>, b: Board, waves: seq<set<TaskId>>, waves': seq<set<TaskId>>)
    requires Closed(e) && b.Keys == e.Keys && forall t :: t in b ==> b[t].Pending?
    requires IsRun(e, good, b, waves) && Complete(BoardAfter(e, good, b, waves))
    requires IsRun(e, good, b, waves') && Complete(BoardAfter(e, good, b, waves'))
    ensures BoardAfter(e, good, b, waves) == BoardAfter(e, good, b, waves')
    ensures BoardAfter(e, good, b, waves) == FinalBoard(e, good)
  {
    FinishedRun(e, good, b, waves);
    FinishedRun(e, good, b, waves');
  }

  ghost function FinalBoard(e: Edges, good: iset<TaskId>): Board {
    map t | t in e :: FinalStatus(e, good, t)
  }

  lemma FinishedBoard(e: Edges, good: iset<TaskId>, b: Board)
    requires Settling(e, good, {}, b) && Complete(b)
    ensures b == FinalBoard(e, good)
  {
  }

  lemma FinishedRun(e: Edges, good: iset<TaskId>, b: Board, waves: seq<set<TaskId>>)
    requires Closed(e) && b.Keys == e.Keys && forall t :: t in b ==> b[t].Pending?
    requires IsRun(e, good, b, waves) && Complete(BoardAfter(e, good, b, waves))
    ensures BoardAfter(e, good, b, waves) == FinalBoard(e, good)
  {
    FreshBoardIsSettling(e, good, b);
    RunKeepsSettling(e, good, b, waves);
    FinishedBoard(e, good, BoardAfter(e, good, b, waves));
  }

  ghost function Unfinished(b: Board): set<TaskId> {
    set t | t in b && !b[t].Terminal()
  }

  /** A finished task stays as it is, and a wave finishes its members. */
  lemma WaveProgress(e: Edges, good: iset<TaskId>, b: Board, wave: set<TaskId>)
    requires AllReady(e, b, wave)
    ensures var after := AfterWave(e, b, good, wave);
            && Unfinished(after) <= Unfinished(b) - wave
            && wave <= Unfinished(b)
            && forall t :: t in b && b[t].Terminal() ==> after[t] == b[t]
  {
  }

  lemma {:induction false} RunProgress(e: Edges, good: iset<TaskId>, b: Board, waves: seq<set<TaskId>>)
    requires IsRun(e, good, b, waves)
    ensures |waves| + |Unfinished(BoardAfter(e, good, b, waves))| <= |Unfinished(b)|
  {
    if waves != [] {
      var n := |waves| - 1;
      RunPrefix(e, good, b, waves, n);
      RunProgress(e, good, b, waves[..n]);
      assert WaveAllowed(e, good, b, waves, n);
      var before := BoardAfter(e, good, b, waves[..n]);
      WaveProgress(e, good, before, waves[n]);
      var w :| w in waves[n];
      CardinalityLess(Unfinished(BoardAfter(e, good, b, waves)), Unfinished(before), w);
    }
  }

  /** What ran has finished, and what has finished stays so. */
  lemma {:induction false} RanIsFinished(e: Edges, good: iset<TaskId>, b: Board, waves: seq<set<TaskId>>, i: nat)
    requires IsRun(e, good, b, waves) && i < |waves|
    ensures waves[i] !! Unfinished(BoardAfter(e, good, b, waves))
  {
    var n := |waves| - 1;
    assert WaveAllowed(e, good, b, waves, n);
    WaveProgress(e, good, BoardAfter(e, good, b, waves[..n]), waves[n]);
    if i < n {
      RunPrefix(e, good, b, waves, n);
      RanIsFinished(e, good, b, waves[..n], i);
      assert waves[..n][i] == waves[i];
    }
  }

  lemma CardinalityLess<T>(a: set<T>, b: set<T>, x: T)
    requires a <= b && x in b && x !in a
    ensures |a| < |b|
  {
    CardinalityAtMost(a, b - {x});
  }

  lemma {:induction false} CardinalityAtMost<T>(a: set<T>, b: set<T>)
    requires a <= b
    ensures |a| <= |b|
  {
    if a != {} {
      var x :| x in a;
      CardinalityAtMost(a - {x}, b - {x});
    }
  }

  /** A task runs in at most one wave, and only when everything it waits for is completed. */
  lemma TaskRunsOnceInOrder(e: Edges, good: iset<TaskId>, b: Board, waves: seq<set<TaskId>>, j: nat)
    requires IsRun(e, good, b, waves) && j < |waves|
    ensures forall i :: 0 <= i < j ==> waves[i] !! waves[j]
    ensures forall t, d :: t in waves[j] && t in e && d in e[t] ==>
              d in b && BoardAfter(e, good, b, waves[..j])[d].Completed?
  {
    RunPrefix(e, good, b, waves, j);
    assert WaveAllowed(e, good, b, waves, j);
    WaveProgress(e, good, BoardAfter(e, good, b, waves[..j]), waves[j]);
    forall i | 0 <= i < j
      ensures waves[i] !! waves[j]
    {
      RanIsFinished(e, good, b, waves[..j], i);
      assert waves[..j][i] == waves[i];
    }
  }

  /** A run has at most as many waves as tasks, and one that is not finished can go on. */
  lemma RunsAreBounded(e: Edges, good: iset<TaskId>, b: Board, waves: seq<set<TaskId>>)
    requires Closed(e) && Acyclic(e) && b.Keys == e.Keys && forall t :: t in b ==> b[t].Pending?
    requires IsRun(e, good, b, waves)
    ensures |waves| <= |e|
    ensures Complete(BoardAfter(e, good, b, waves)) || exists t :: IsReady(e, BoardAfter(e, good, b, waves), t)
  {
    RunProgress(e, good, b, waves);
    CardinalityAtMost(Unfinished(b), e.Keys);
    FreshBoardIsSettling(e, good, b);
    RunKeepsSettling(e, good, b, waves);
    if !Complete(BoardAfter(e, good, b, waves)) {
      SomethingIsReady(e, good, BoardAfter(e, good, b, waves));
    }
  }

  // -------------------------------------------------- results folded one at a time

  lemma FoldOneIsWave(e: Edges, b: Board, good: iset<TaskId>, w: TaskId)
    requires IsReady(e, b, w)
    ensures FoldOne(e, b, good, w) == AfterWave(e, b, good, {w})
  {
    assert ToSet([w]) == {w};
    assert [w][..0] == [];
    FoldOrderIrrelevant(e, b, good, [w]);
    assert FoldAll(e, b, good, []) == b;
    assert FoldAll(e, b, good, [w]) == FoldOne(e, b, good, w);
  }

  /** Folding one result keeps the invariant, finishes that task, and leaves the other
      members of its wave ready. */
  lemma FoldKeepsSettling(e: Edges, good: iset<TaskId>, replaced: set<TaskId>, b: Board, w: TaskId)
    requires Closed(e) && Settling(e, good, replaced, b) && IsReady(e, b, w)
    ensures var b' := FoldOne(e, b, good, w);
            && Settling(e, good, replaced, b')
            && w in Unfinished(b)
            && Unfinished(b') <= Unfinished(b) - {w}
            && forall x :: x != w && IsReady(e, b, x) ==> IsReady(e, b', x)
  {
    FoldOneIsWave(e, b, good, w);
    WaveKeepsSettling(e, good, replaced, b, {w});
    WaveProgress(e, good, b, {w});
    forall x | x != w && IsReady(e, b, x)
      ensures IsReady(e, FoldOne(e, b, good, w), x)
    {
      CascadeSparesWave(e, b, {w, x}, Losers({w}, good), x);
    }
  }

  /** Taking a task out of the plan keeps the invariant with one more task exempt. */
  lemma SetAsideKeepsSettling(e: Edges, good: iset<TaskId>, replaced: set<TaskId>, b: Board, w: TaskId, s: TaskStatus)
    requires Closed(e) && Settling(e, good, replaced, b) && IsReady(e, b, w)
    requires w !in good && s.Terminal() && !s.Completed?
    ensures Settling(e, good, replaced + {w}, b[w := s])
    ensures w in Unfinished(b) && Unfinished(b[w := s]) == Unfinished(b) - {w}
    ensures forall x :: x != w && IsReady(e, b, x) ==> IsReady(e, b[w := s], x)
  {
    forall t, d | t in e && d in e[t] && d in e && !b[w := s][t].Terminal()
      ensures Unobstructed(replaced + {w}, b[w := s], d)
    {
      assert Unobstructed(replaced, b, d);
    }
    forall x | x != w && IsReady(e, b, x)
      ensures IsReady(e, b[w := s], x)
    {
      assert w !in e[x];
    }
  }

  /** `more` adds tasks without touching the old ones. */
  ghost predicate Extends(e: Edges, more: Edges) {
    forall t :: t in e ==> t in more && more[t] == e[t]
  }

  lemma {:induction false} PathStaysInside(e: Edges, more: Edges, p: seq<TaskId>)
    requires Closed(e) && Extends(e, more) && IsPath(more, p) && p[0] in e
    ensures IsPath(e, p)
  {
    if |p| > 1 {
      assert p[1] in more[p[0]];
      assert IsPath(more, p[1..]);
      PathStaysInside(e, more, p[1..]);
    }
  }

  lemma ExtensionKeepsFinal(e: Edges, more: Edges, good: iset<TaskId>, t: TaskId)
    requires Closed(e) && Extends(e, more) && t in e
    ensures FinalStatus(e, good, t) == FinalStatus(more, good, t)
  {
    if p :| IsPath(more, p) && |p| >= 2 && p[0] == t && p[|p| - 1] !in good {
      PathStaysInside(e, more, p);
    }
    if p :| IsPath(e, p) && |p| >= 2 && p[0] == t && p[|p| - 1] !in good {
      assert IsPath(more, p);
    }
  }

  /** New startable tasks that wait for completed or unfinished ones only keep the invariant. */
  lemma ExtendKeepsSettling(e: Edges, more: Edges, good: iset<TaskId>, replaced: set<TaskId>, b: Board, b': Board)
    requires Closed(e) && Extends(e, more) && Settling(e, good, replaced, b)
    requires b'.Keys == more.Keys && forall t :: t in e ==> b'[t] == b[t]
    requires forall t :: t in more && t !in e ==> Startable(b'[t])
    requires forall t, d :: t in more && t !in e && d in more[t] && d in more ==> Unobstructed(replaced, b', d)
    ensures Settling(more, good, replaced, b')
  {
    forall t | t in more && b'[t].Terminal() && t !in replaced
      ensures b'[t] == FinalStatus(more, good, t)
    {
      ExtensionKeepsFinal(e, more, good, t);
    }
    forall t, d | t in more && d in more[t] && d in more && !b'[t].Terminal()
      ensures Unobstructed(replaced, b', d)
    {
      if t in e {
        assert d in e;
        assert Unobstructed(replaced, b, d);
      }
    }
  }
}
