/** What a task's attempts say about how they came to be: each was routed with exactly the targets
    given up before it left out, answered by the adapter, and followed by what the policy decided. */
module Courses {
  import opened Dag
  import opened Tokens
  import opened Waves
  import opened Tasks
  import opened Attempts

  /** The policy's answer to attempt `i`. */
  function Answer(env: Env, id: TaskId, n: nat, tries: seq<Attempt>, i: nat): Decision
    requires i < |tries|
    decreases i, 1
  {
    env.decide(id, n + i + 1, InARow(env, id, n, tries, i) + 1,
               env.probe(id, n + i + 1, GivenUp(env, id, n, tries, i) + [tries[i].target]))
  }

  /** The targets given up before attempt `i`. */
  function GivenUp(env: Env, id: TaskId, n: nat, tries: seq<Attempt>, i: nat): seq<Target>
    requires i <= |tries|
    decreases i, 0
  {
    if i == 0 then []
    else
      GivenUp(env, id, n, tries, i - 1)
        + if Answer(env, id, n, tries, i - 1).Reroute? then [tries[i - 1].target] else []
  }

  /** How many attempts were spent since then. */
  function InARow(env: Env, id: TaskId, n: nat, tries: seq<Attempt>, i: nat): nat
    requires i <= |tries|
    decreases i, 0
  {
    if i == 0 || Answer(env, id, n, tries, i - 1).Reroute? then 0 else InARow(env, id, n, tries, i - 1) + 1
  }

  /** Attempt `i` went where the router said, and says what the adapter replied; an adapter that
      broke counts as a failure that cost nothing known. */
  ghost predicate Tried(env: Env, cap: nat, id: TaskId, n: nat, tries: seq<Attempt>, i: nat)
    requires i < |tries|
  {
    var a := tries[i];
    && n + i < cap
    && env.route(id, n + i, GivenUp(env, id, n, tries, i)) == Some(a.target)
    && match env.reply(id, n + i, a.target)
       case Delivered(success, tokens, _) => a.success == success && a.tokens == tokens
       case Errored => !a.success && a.tokens == TokenUsage(0, 0, 0, false)
  }

  /** Attempt `i` failed and was not the last. */
  ghost predicate WentOn(env: Env, id: TaskId, n: nat, tries: seq<Attempt>, i: nat)
    requires i < |tries|
  {
    !tries[i].success && (Answer(env, id, n, tries, i).RetrySameTarget? || Answer(env, id, n, tries, i).Reroute?)
  }

  /** Why there were no more: success, the policy, the budget, or nowhere to go. */
  ghost predicate Ended(env: Env, cap: nat, id: TaskId, n: nat, tries: seq<Attempt>, changed: seq<string>, end: End) {
    var k := |tries|;
    if k > 0 && tries[k - 1].success then
      && end == Done
      && env.reply(id, n + k - 1, tries[k - 1].target) == Delivered(true, tries[k - 1].tokens, changed)
    else
      && changed == []
      && if k == 0 || WentOn(env, id, n, tries, k - 1) then
           if n + k >= cap then end == OutOfBudget
           else end == Unroutable && env.route(id, n + k, GivenUp(env, id, n, tries, k)) == None
         else match Answer(env, id, n, tries, k - 1)
              case AskPlanner(oversized) => end == AskedPlanner(oversized)
              case _ => end == GaveUp
  }

  /** The whole of it, for a task attempted `n` times before. */
  ghost predicate Explained(env: Env, cap: nat, id: TaskId, n: nat, tries: seq<Attempt>, changed: seq<string>,
                            end: End) {
    && (forall i :: 0 <= i < |tries| ==> Tried(env, cap, id, n, tries, i))
    && (forall i :: 0 <= i < |tries| - 1 ==> WentOn(env, id, n, tries, i))
    && Ended(env, cap, id, n, tries, changed, end)
  }

  // ------------------------------------------------------------------- the proof

  /** What came before an attempt does not hang on what came later. */
  lemma {:induction false} Prefixes(env: Env, id: TaskId, n: nat, tries: seq<Attempt>, more: seq<Attempt>, i: nat)
    requires i <= |tries|
    ensures GivenUp(env, id, n, tries + more, i) == GivenUp(env, id, n, tries, i)
    ensures InARow(env, id, n, tries + more, i) == InARow(env, id, n, tries, i)
    ensures i < |tries| ==> Answer(env, id, n, tries + more, i) == Answer(env, id, n, tries, i)
    decreases i
  {
    if i > 0 {
      Prefixes(env, id, n, tries, more, i - 1);
    }
  }

  /** Attempts that all failed and went on. */
  ghost predicate Underway(env: Env, cap: nat, id: TaskId, n: nat, tries: seq<Attempt>) {
    forall i :: 0 <= i < |tries| ==> Tried(env, cap, id, n, tries, i) && WentOn(env, id, n, tries, i)
  }

  lemma OneMoreTry(env: Env, cap: nat, id: TaskId, n: nat, tries: seq<Attempt>, a: Attempt)
    requires Underway(env, cap, id, n, tries)
    ensures var more := tries + [a];
            && (forall i :: 0 <= i < |tries| ==> Tried(env, cap, id, n, more, i) && WentOn(env, id, n, more, i))
            && GivenUp(env, id, n, more, |tries|) == GivenUp(env, id, n, tries, |tries|)
            && InARow(env, id, n, more, |tries|) == InARow(env, id, n, tries, |tries|)
  {
    var more := tries + [a];
    Prefixes(env, id, n, tries, [a], |tries|);
    forall i | 0 <= i < |tries|
      ensures Tried(env, cap, id, n, more, i) && WentOn(env, id, n, more, i)
    {
      Prefixes(env, id, n, tries, [a], i);
      assert Tried(env, cap, id, n, tries, i) && WentOn(env, id, n, tries, i);
    }
  }

  lemma StoppedIsExplained(env: Env, cap: nat, id: TaskId, n: nat, tries: seq<Attempt>)
    requires Underway(env, cap, id, n, tries)
    requires TryOnce(env, cap, id, n + |tries|, GivenUp(env, id, n, tries, |tries|)).Stopped?
    ensures Explained(env, cap, id, n, tries, [],
                      TryOnce(env, cap, id, n + |tries|, GivenUp(env, id, n, tries, |tries|)).end)
  {
    assert |tries| > 0 ==> WentOn(env, id, n, tries, |tries| - 1);
  }

  lemma WonIsExplained(env: Env, cap: nat, id: TaskId, n: nat, tries: seq<Attempt>, a: Attempt, changed: seq<string>)
    requires Underway(env, cap, id, n, tries)
    requires TryOnce(env, cap, id, n + |tries|, GivenUp(env, id, n, tries, |tries|)) == Won(a, changed)
    ensures Explained(env, cap, id, n, tries + [a], changed, Done)
  {
    OneMoreTry(env, cap, id, n, tries, a);
    hide GivenUp; hide InARow; hide Answer;
    assert (tries + [a])[|tries|] == a;
    assert Tried(env, cap, id, n, tries + [a], |tries|);
  }

  lemma LostIsTried(env: Env, cap: nat, id: TaskId, n: nat, tries: seq<Attempt>, a: Attempt)
    requires Underway(env, cap, id, n, tries)
    requires TryOnce(env, cap, id, n + |tries|, GivenUp(env, id, n, tries, |tries|)) == Lost(a)
    ensures var more, k := tries + [a], |tries|;
            && Tried(env, cap, id, n, more, k) && !more[k].success && more[k] == a
            && (forall i :: 0 <= i < k ==> Tried(env, cap, id, n, more, i) && WentOn(env, id, n, more, i))
            && Answer(env, id, n, more, k)
               == DecisionFor(env, id, n + k, GivenUp(env, id, n, tries, k), InARow(env, id, n, tries, k), a.target)
            && GivenUp(env, id, n, more, k + 1)
               == GivenUp(env, id, n, tries, k) + (if Answer(env, id, n, more, k).Reroute? then [a.target] else [])
            && InARow(env, id, n, more, k + 1)
               == (if Answer(env, id, n, more, k).Reroute? then 0 else InARow(env, id, n, tries, k) + 1)
  {
    OneMoreTry(env, cap, id, n, tries, a);
    assert (tries + [a])[|tries|] == a;
  }

  lemma {:induction false} GoesOnExplained(env: Env, cap: nat, id: TaskId, n: nat, tries: seq<Attempt>,
                                           last: Option<Target>)
    requires Underway(env, cap, id, n, tries)
    ensures var k := |tries|;
            var c := CourseFrom(env, cap, id, n + k, GivenUp(env, id, n, tries, k), InARow(env, id, n, tries, k), last);
            Explained(env, cap, id, n, tries + c.attempts, c.changed, c.end)
    decreases cap - (n + |tries|)
  {
    hide *;
    var k := |tries|;
    var givenUp, inARow := GivenUp(env, id, n, tries, k), InARow(env, id, n, tries, k);
    CourseUnfolds(env, cap, id, n + k, givenUp, inARow, last);
    match TryOnce(env, cap, id, n + k, givenUp)
    case Stopped(end) =>
      StoppedIsExplained(env, cap, id, n, tries);
      assert tries + [] == tries;
    case Won(a, changed) =>
      WonIsExplained(env, cap, id, n, tries, a, changed);
    case Lost(a) =>
      LostGoesOn(env, cap, id, n, tries, a, last);
      var more := tries + [a];
      if WentOn(env, id, n, more, k) {
        GoesOnExplained(env, cap, id, n, more, Some(a.target));
        PrependIs(tries, a, CourseFrom(env, cap, id, n + k + 1, GivenUp(env, id, n, more, k + 1),
                                       InARow(env, id, n, more, k + 1), Some(a.target)));
      }
  }

  lemma PrependIs(tries: seq<Attempt>, a: Attempt, c: Course)
    ensures var p := Prepend([a], c);
            p.changed == c.changed && p.end == c.end && tries + p.attempts == (tries + [a]) + c.attempts
  {
  }

  /** A failed attempt, and how the course goes on. */
  lemma LostGoesOn(env: Env, cap: nat, id: TaskId, n: nat, tries: seq<Attempt>, a: Attempt, last: Option<Target>)
    requires Underway(env, cap, id, n, tries)
    requires TryOnce(env, cap, id, n + |tries|, GivenUp(env, id, n, tries, |tries|)) == Lost(a)
    ensures var k, more := |tries|, tries + [a];
            var c := CourseFrom(env, cap, id, n + k, GivenUp(env, id, n, tries, k), InARow(env, id, n, tries, k), last);
            if WentOn(env, id, n, more, k) then
              && Underway(env, cap, id, n, more) && n + k < cap
              && c == Prepend([a], CourseFrom(env, cap, id, n + k + 1, GivenUp(env, id, n, more, k + 1),
                                              InARow(env, id, n, more, k + 1), Some(a.target)))
            else c.attempts == [a] && Explained(env, cap, id, n, more, c.changed, c.end)
  {
    var k, more := |tries|, tries + [a];
    LostIsTried(env, cap, id, n, tries, a);
    CourseUnfolds(env, cap, id, n + k, GivenUp(env, id, n, tries, k), InARow(env, id, n, tries, k), last);
    hide CourseFrom; hide TryOnce; hide GivenUp; hide InARow; hide Answer; hide DecisionFor; hide Tried;
    if WentOn(env, id, n, more, k) {
      assert GivenUp(env, id, n, tries, k) + [] == GivenUp(env, id, n, tries, k);
    }
  }

  /** A task's course is explained by its attempts. */
  lemma CourseIsExplained(env: Env, cap: nat, id: TaskId, n: nat, last: Option<Target>)
    ensures var c := CourseOf(env, cap, id, n, last);
            Explained(env, cap, id, n, c.attempts, c.changed, c.end)
  {
    GoesOnExplained(env, cap, id, n, [], last);
    var c := CourseOf(env, cap, id, n, last);
    assert [] + c.attempts == c.attempts;
  }

  // ----------------------------------------------------------- what follows from it

  /** Given up are the targets of the attempts that the policy answered with a reroute, and no others. */
  lemma {:induction false} GivenUpAre(env: Env, id: TaskId, n: nat, tries: seq<Attempt>, i: nat, target: Target)
    requires i <= |tries|
    ensures target in GivenUp(env, id, n, tries, i)
       <==> exists j :: 0 <= j < i && Answer(env, id, n, tries, j).Reroute? && tries[j].target == target
    decreases i
  {
    if i > 0 {
      hide Answer;
      GivenUpAre(env, id, n, tries, i - 1, target);
    }
  }

  /** With a router that honours exclusions, a target the policy moved on from is not tried again. */
  lemma RerouteIsForGood(env: Env, cap: nat, id: TaskId, n: nat, last: Option<Target>, i: nat, j: nat)
    requires HonoursExclusions(env)
    requires i < j < |CourseOf(env, cap, id, n, last).attempts|
    requires Answer(env, id, n, CourseOf(env, cap, id, n, last).attempts, i).Reroute?
    ensures var tries := CourseOf(env, cap, id, n, last).attempts; tries[j].target != tries[i].target
  {
    CourseIsExplained(env, cap, id, n, last);
    var tries := CourseOf(env, cap, id, n, last).attempts;
    hide CourseOf; hide Answer; hide GivenUp; hide Ended; hide WentOn;
    assert Tried(env, cap, id, n, tries, j);
    GivenUpAre(env, id, n, tries, j, tries[i].target);
    assert env.route(id, n + j, GivenUp(env, id, n, tries, j)).value !in GivenUp(env, id, n, tries, j);
  }

  ghost predicate AreGivenUp(env: Env, id: TaskId, n: nat, tries: seq<Attempt>, i: nat, targets: seq<Target>)
    requires i <= |tries|
  {
    forall t :: t in targets <==>
      exists j :: 0 <= j < i && Answer(env, id, n, tries, j).Reroute? && tries[j].target == t
  }

  /** A retry excludes nothing: the next attempt is routed with the same targets left out. */
  lemma RetryExcludesNothing(env: Env, cap: nat, id: TaskId, n: nat, last: Option<Target>, i: nat)
    requires i + 1 < |CourseOf(env, cap, id, n, last).attempts|
    requires Answer(env, id, n, CourseOf(env, cap, id, n, last).attempts, i).RetrySameTarget?
    ensures var tries := CourseOf(env, cap, id, n, last).attempts;
            exists leftOut :: && AreGivenUp(env, id, n, tries, i, leftOut)
                              && env.route(id, n + i, leftOut) == Some(tries[i].target)
                              && env.route(id, n + i + 1, leftOut) == Some(tries[i + 1].target)
  {
    CourseIsExplained(env, cap, id, n, last);
    var tries := CourseOf(env, cap, id, n, last).attempts;
    var leftOut := GivenUp(env, id, n, tries, i);
    assert GivenUp(env, id, n, tries, i + 1) == leftOut + [] == leftOut;
    hide CourseOf; hide Answer; hide GivenUp; hide Ended; hide WentOn;
    assert Tried(env, cap, id, n, tries, i) && Tried(env, cap, id, n, tries, i + 1);
    forall t
      ensures t in leftOut <==>
                exists j :: 0 <= j < i && Answer(env, id, n, tries, j).Reroute? && tries[j].target == t
    {
      GivenUpAre(env, id, n, tries, i, t);
    }
    assert AreGivenUp(env, id, n, tries, i, leftOut);
  }

  /** The policy is told how many attempts went by since it last moved on. */
  lemma {:induction false} InARowCounts(env: Env, id: TaskId, n: nat, tries: seq<Attempt>, i: nat) returns (since: nat)
    requires i <= |tries|
    ensures since <= i && InARow(env, id, n, tries, i) == i - since
    ensures since > 0 ==> Answer(env, id, n, tries, since - 1).Reroute?
    ensures forall j :: since <= j < i ==> !Answer(env, id, n, tries, j).Reroute?
    decreases i
  {
    if i == 0 || Answer(env, id, n, tries, i - 1).Reroute? {
      since := i;
    } else {
      since := InARowCounts(env, id, n, tries, i - 1);
    }
  }
}
