/** The MCP connection pool as a protocol: calls, dying servers and the idle reaper, interleaved
    at every point where one of them can be suspended. */
module McpPool {
  import opened Tasks

  type ConnectionId = nat
  type CallId = nat

  /** One server process and session; what has died does not come back. */
  datatype Connection = Connection(server: string, alive: bool)

  datatype Owner = Call(id: CallId) | Reaper

  /** The connection to one server, if there is one, behind a lock. */
  datatype Slot = Slot(content: Option<ConnectionId>, lock: Option<Owner>)

  /** Where a call stands. Looking, Launching and Cleaning hold the slot's lock;
      Using, Failed and Cleaning hold a reference to the connection. */
  datatype Phase =
    | Arriving(server: string)
    | Looking(server: string)
    | Launching(server: string)
    | Using(server: string, connection: ConnectionId)
    | Failed(server: string, connection: ConnectionId)
    | Cleaning(server: string, connection: ConnectionId)
    | Over

  /** The reaper: idle, inside a locked slot, or shutting down what it took out of one. */
  datatype Reaping = Resting | Visiting(server: string) | Closing(server: string, connection: ConnectionId)

  datatype Pool = Pool(
    connections: map<ConnectionId, Connection>,
    slots: map<string, Slot>,
    calls: map<CallId, Phase>,
    reaper: Reaping)

  const EMPTY := Pool(map[], map[], map[], Resting)

  predicate Alive(p: Pool, c: ConnectionId) {
    c in p.connections && p.connections[c].alive
  }

  predicate Holds(phase: Phase, c: ConnectionId) {
    (phase.Using? || phase.Failed? || phase.Cleaning?) && phase.connection == c
  }

  predicate Locks(phase: Phase, server: string) {
    (phase.Looking? || phase.Launching? || phase.Cleaning?) && phase.server == server
  }

  /** The calls with a reference to `c`; with the slot's own, its strong count. */
  function Holders(p: Pool, c: ConnectionId): set<CallId> {
    set k | k in p.calls && Holds(p.calls[k], c)
  }

  datatype Step =
    | Arrive(call: CallId, server: string)
    | Lock(call: CallId)
    | Reuse(call: CallId)
    | Launch(call: CallId)
    | Launched(call: CallId, connection: ConnectionId)
    | LaunchFailed(call: CallId)
    | Finish(call: CallId)
    | Fail(call: CallId)
    | LockToClean(call: CallId)
    | Clean(call: CallId)
    | Abandon(call: CallId)
    | Die(connection: ConnectionId)
    | Visit(server: string)
    | Judge(idle: bool)
    | Closed

  predicate Unlocked(p: Pool, server: string) {
    server in p.slots ==> p.slots[server].lock.None?
  }

  predicate LiveContent(p: Pool, server: string) {
    server in p.slots && p.slots[server].content.Some? && Alive(p, p.slots[server].content.value)
  }

  predicate Enabled(p: Pool, step: Step) {
    match step
    case Arrive(k, _) => k !in p.calls
    case Lock(k) => k in p.calls && p.calls[k].Arriving? && Unlocked(p, p.calls[k].server)
    case Reuse(k) => k in p.calls && p.calls[k].Looking? && LiveContent(p, p.calls[k].server)
    case Launch(k) => k in p.calls && p.calls[k].Looking? && !LiveContent(p, p.calls[k].server)
    case Launched(k, c) => k in p.calls && p.calls[k].Launching? && c !in p.connections
    case LaunchFailed(k) => k in p.calls && p.calls[k].Launching?
    case Finish(k) => k in p.calls && p.calls[k].Using?
    case Fail(k) => k in p.calls && p.calls[k].Using? && !Alive(p, p.calls[k].connection)
    case LockToClean(k) => k in p.calls && p.calls[k].Failed? && Unlocked(p, p.calls[k].server)
    case Clean(k) => k in p.calls && p.calls[k].Cleaning?
    case Abandon(k) => k in p.calls
    case Die(c) => Alive(p, c)
    case Visit(server) => p.reaper.Resting? && server in p.slots && Unlocked(p, server)
    case Judge(_) => p.reaper.Visiting?
    case Closed => p.reaper.Closing?
  }

  function ContentOf(p: Pool, server: string): Option<ConnectionId> {
    if server in p.slots then p.slots[server].content else None
  }

  function WithSlot(p: Pool, server: string, content: Option<ConnectionId>, lock: Option<Owner>): Pool {
    p.(slots := p.slots[server := Slot(content, lock)])
  }

  function WithCall(p: Pool, k: CallId, phase: Phase): Pool {
    p.(calls := p.calls[k := phase])
  }

  /** Dead, or idle with no reference but the slot's. */
  predicate Expired(p: Pool, c: ConnectionId, idle: bool) {
    !Alive(p, c) || (idle && Holders(p, c) == {})
  }

  function After(p: Pool, step: Step): Pool
    requires Enabled(p, step)
  {
    match step
    case Arrive(k, server) => WithCall(p, k, Arriving(server))
    case Lock(k) =>
      var server := p.calls[k].server;
      WithCall(WithSlot(p, server, ContentOf(p, server), Some(Call(k))), k, Looking(server))
    case Reuse(k) =>
      var server := p.calls[k].server;
      var c := p.slots[server].content;
      WithCall(WithSlot(p, server, c, None), k, Using(server, c.value))
    case Launch(k) => WithCall(p, k, Launching(p.calls[k].server))
    case Launched(k, c) =>
      var server := p.calls[k].server;
      var q := p.(connections := p.connections[c := Connection(server, true)]);
      WithCall(WithSlot(q, server, Some(c), None), k, Using(server, c))
    case LaunchFailed(k) =>
      var server := p.calls[k].server;
      WithCall(WithSlot(p, server, ContentOf(p, server), None), k, Over)
    case Finish(k) => WithCall(p, k, Over)
    case Fail(k) => WithCall(p, k, Failed(p.calls[k].server, p.calls[k].connection))
    case LockToClean(k) =>
      var server := p.calls[k].server;
      WithCall(WithSlot(p, server, ContentOf(p, server), Some(Call(k))), k, Cleaning(server, p.calls[k].connection))
    case Clean(k) =>
      var server := p.calls[k].server;
      var content := ContentOf(p, server);
      var left := if content == Some(p.calls[k].connection) then None else content;
      WithCall(WithSlot(p, server, left, None), k, Over)
    case Abandon(k) =>
      var phase := p.calls[k];
      var q := if phase.Looking? || phase.Launching? || phase.Cleaning?
               then WithSlot(p, phase.server, ContentOf(p, phase.server), None) else p;
      WithCall(q, k, Over)
    case Die(c) => p.(connections := p.connections[c := p.connections[c].(alive := false)])
    case Visit(server) => WithSlot(p, server, ContentOf(p, server), Some(Reaper)).(reaper := Visiting(server))
    case Judge(idle) =>
      var server := p.reaper.server;
      var content := ContentOf(p, server);
      if content.Some? && Expired(p, content.value, idle) then
        if Holders(p, content.value) == {} then
          WithSlot(p, server, None, Some(Reaper)).(reaper := Closing(server, content.value))
        else WithSlot(p, server, None, None).(reaper := Resting)
      else WithSlot(p, server, content, None).(reaper := Resting)
    case Closed =>
      var server, c := p.reaper.server, p.reaper.connection;
      var q := if c in p.connections
               then p.(connections := p.connections[c := p.connections[c].(alive := false)]) else p;
      WithSlot(q, server, ContentOf(p, server), None).(reaper := Resting)
  }

  ghost predicate IsRun(p: Pool, steps: seq<Step>)
    decreases |steps|
  {
    steps == [] || (Enabled(p, steps[0]) && IsRun(After(p, steps[0]), steps[1..]))
  }

  ghost function Final(p: Pool, steps: seq<Step>): Pool
    requires IsRun(p, steps)
    decreases |steps|
  {
    if steps == [] then p else Final(After(p, steps[0]), steps[1..])
  }

  // -------------------------------------------------------------- the invariant

  /** A call inside a slot holds its lock. */
  ghost predicate CallsLock(p: Pool) {
    forall k, server :: k in p.calls && Locks(p.calls[k], server) ==>
      server in p.slots && p.slots[server].lock == Some(Call(k))
  }

  /** So does the reaper. */
  ghost predicate ReaperLocks(p: Pool) {
    !p.reaper.Resting? ==> p.reaper.server in p.slots && p.slots[p.reaper.server].lock == Some(Reaper)
  }

  /** And a lock is held only by somebody inside the slot. */
  ghost predicate LocksAreHeld(p: Pool) {
    forall server :: server in p.slots && p.slots[server].lock.Some? ==>
      match p.slots[server].lock.value
      case Call(k) => k in p.calls && Locks(p.calls[k], server)
      case Reaper => !p.reaper.Resting? && p.reaper.server == server
  }

  ghost predicate LocksAgree(p: Pool) {
    CallsLock(p) && ReaperLocks(p) && LocksAreHeld(p)
  }

  /** References point at connections of the right server; a failed call's is dead. */
  ghost predicate ReferencesAgree(p: Pool) {
    && (forall server :: server in p.slots && p.slots[server].content.Some? ==>
          var c := p.slots[server].content.value;
          c in p.connections && p.connections[c].server == server)
    && (forall k, c :: k in p.calls && Holds(p.calls[k], c) ==>
          c in p.connections && p.connections[c].server == p.calls[k].server)
    && (forall k :: k in p.calls && (p.calls[k].Failed? || p.calls[k].Cleaning?) ==> !Alive(p, p.calls[k].connection))
  }

  /** Nobody launches over a live connection. */
  ghost predicate LaunchesAgree(p: Pool) {
    forall k :: k in p.calls && p.calls[k].Launching? ==> !LiveContent(p, p.calls[k].server)
  }

  /** What the reaper shuts down is out of its slot, and nobody holds it. */
  ghost predicate ReaperAgrees(p: Pool) {
    p.reaper.Closing? ==>
      && p.reaper.connection in p.connections && p.connections[p.reaper.connection].server == p.reaper.server
      && ContentOf(p, p.reaper.server).None?
      && Holders(p, p.reaper.connection) == {}
  }

  /** A live connection is in its slot, or being shut down by the reaper. */
  ghost predicate LiveAreReachable(p: Pool) {
    forall c :: Alive(p, c) ==>
      var server := p.connections[c].server;
      ContentOf(p, server) == Some(c) || p.reaper == Closing(server, c)
  }

  ghost predicate Inv(p: Pool) {
    LocksAgree(p) && ReferencesAgree(p) && LaunchesAgree(p) && ReaperAgrees(p) && LiveAreReachable(p)
  }

  lemma EmptyIsInv()
    ensures Inv(EMPTY)
  {
  }

  /** Calls move one at a time, and only into a slot they lock. */
  lemma CallsMoveAlone(p: Pool, step: Step, k: CallId, server: string)
    requires Enabled(p, step) && k in After(p, step).calls && Locks(After(p, step).calls[k], server)
    ensures (k in p.calls && Locks(p.calls[k], server)) || step == Lock(k) || step == LockToClean(k)
    ensures step == Lock(k) || step == LockToClean(k) ==>
              server in After(p, step).slots && After(p, step).slots[server].lock == Some(Call(k))
  {
    hide LiveContent; hide Expired; hide Alive; hide ContentOf;
  }

  /** No step takes the lock of a call that stays inside its slot. */
  lemma LockOfCallStays(p: Pool, step: Step, k: CallId, server: string)
    requires CallsLock(p) && ReaperLocks(p) && Enabled(p, step)
    requires k in p.calls && Locks(p.calls[k], server)
    requires k in After(p, step).calls && Locks(After(p, step).calls[k], server)
    ensures server in After(p, step).slots && After(p, step).slots[server].lock == Some(Call(k))
  {
    assert server in p.slots && p.slots[server].lock == Some(Call(k));
    hide LiveContent; hide Expired; hide Alive; hide ContentOf; hide Holders;
    match step
    case LaunchFailed(j) => assert Locks(p.calls[j], p.calls[j].server);
    case Launched(j, _) => assert Locks(p.calls[j], p.calls[j].server);
    case Reuse(j) => assert Locks(p.calls[j], p.calls[j].server);
    case Clean(j) => assert Locks(p.calls[j], p.calls[j].server);
    case Abandon(j) =>
      assert p.calls[j].Looking? || p.calls[j].Launching? || p.calls[j].Cleaning? ==>
          Locks(p.calls[j], p.calls[j].server);
    case _ =>
  }

  lemma StepKeepsCallsLock(p: Pool, step: Step)
    requires LocksAgree(p) && Enabled(p, step)
    ensures CallsLock(After(p, step))
  {
    hide LocksAreHeld; hide After; hide Enabled; hide Locks;
    forall k, server | k in After(p, step).calls && Locks(After(p, step).calls[k], server)
      ensures server in After(p, step).slots && After(p, step).slots[server].lock == Some(Call(k))
    {
      CallsMoveAlone(p, step, k, server);
      if step != Lock(k) && step != LockToClean(k) {
        LockOfCallStays(p, step, k, server);
      }
    }
  }

  lemma StepKeepsReaperLocks(p: Pool, step: Step)
    requires LocksAgree(p) && Enabled(p, step)
    ensures ReaperLocks(After(p, step))
  {
    hide LocksAreHeld; hide LiveContent; hide Expired; hide Alive;
  }

  lemma StepKeepsLocksHeld(p: Pool, step: Step)
    requires LocksAgree(p) && Enabled(p, step)
    ensures LocksAreHeld(After(p, step))
  {
    hide LiveContent; hide Expired; hide Alive;
  }

  /** Connections keep their server; new ones appear only by launching. */
  lemma ConnectionsStay(p: Pool, step: Step)
    requires Enabled(p, step)
    ensures forall c :: c in p.connections ==>
              c in After(p, step).connections && After(p, step).connections[c].server == p.connections[c].server
    ensures step.Launched? && p.calls[step.call].Launching? ==>
              After(p, step).connections[step.connection] == Connection(p.calls[step.call].server, true)
  {
    hide Unlocked; hide Expired; hide Holders;
  }

  /** A call comes by a reference only by taking what its slot holds, or by launching it. */
  lemma HoldingAfter(p: Pool, step: Step, k: CallId, c: ConnectionId)
    requires Enabled(p, step) && k in After(p, step).calls && Holds(After(p, step).calls[k], c)
    ensures k in p.calls && !p.calls[k].Over? && p.calls[k].server == After(p, step).calls[k].server
    ensures || Holds(p.calls[k], c)
            || (step == Reuse(k) && ContentOf(p, p.calls[k].server) == Some(c))
            || step == Launched(k, c)
  {
    hide Unlocked; hide Expired; hide Holders;
  }

  lemma FailedAfter(p: Pool, step: Step, k: CallId)
    requires Enabled(p, step) && k in After(p, step).calls
    requires After(p, step).calls[k].Failed? || After(p, step).calls[k].Cleaning?
    ensures k in p.calls && Holds(p.calls[k], After(p, step).calls[k].connection)
    ensures p.calls[k].Failed? || p.calls[k].Cleaning? || !Alive(p, p.calls[k].connection)
  {
    hide Unlocked; hide Expired; hide Holders; hide LiveContent;
  }

  lemma StepKeepsReferences(p: Pool, step: Step)
    requires ReferencesAgree(p) && Enabled(p, step)
    ensures ReferencesAgree(After(p, step))
  {
    var q := After(p, step);
    ConnectionsStay(p, step);
    LaunchedIsNew(p, step);
    hide After; hide Enabled;
    forall server | server in q.slots && q.slots[server].content.Some?
      ensures q.slots[server].content.value in q.connections
              && q.connections[q.slots[server].content.value].server == server
    {
      ContentAfter(p, step, server);
    }
    forall k, c | k in q.calls && Holds(q.calls[k], c)
      ensures c in q.connections && q.connections[c].server == q.calls[k].server
    {
      HoldingAfter(p, step, k, c);
    }
    forall k | k in q.calls && (q.calls[k].Failed? || q.calls[k].Cleaning?)
      ensures !Alive(q, q.calls[k].connection)
    {
      FailedAfter(p, step, k);
      if Alive(q, q.calls[k].connection) {
        OnlyLaunchesLive(p, step, q.calls[k].connection);
        assert false;
      }
    }
  }

  lemma LaunchedIsNew(p: Pool, step: Step)
    requires Enabled(p, step)
    ensures step.Launched? ==>
              step.call in p.calls && p.calls[step.call].Launching? && step.connection !in p.connections
  {
  }

  /** A connection that was not live before a step is not live after it, unless just launched. */
  lemma OnlyLaunchesLive(p: Pool, step: Step, c: ConnectionId)
    requires Enabled(p, step) && Alive(After(p, step), c)
    ensures Alive(p, c) || (step.Launched? && step.connection == c)
  {
    hide Holders; hide LiveContent; hide Unlocked;
  }

  lemma ContentAfter(p: Pool, step: Step, server: string)
    requires Enabled(p, step) && ContentOf(After(p, step), server).Some?
    ensures ContentOf(After(p, step), server) == ContentOf(p, server)
         || (step.Launched? && p.calls[step.call].server == server
             && ContentOf(After(p, step), server) == Some(step.connection))
  {
    hide Unlocked; hide Expired; hide Holders;
  }

  lemma LaunchingAfter(p: Pool, step: Step, k: CallId)
    requires Enabled(p, step) && k in After(p, step).calls && After(p, step).calls[k].Launching?
    ensures k in p.calls && p.calls[k].server == After(p, step).calls[k].server
    ensures p.calls[k].Launching? || step == Launch(k)
    ensures step.Launched? ==> step.call != k
  {
    hide LiveContent; hide Unlocked; hide Expired; hide Holders;
  }

  lemma StepKeepsLaunches(p: Pool, step: Step)
    requires LocksAgree(p) && ReferencesAgree(p) && LaunchesAgree(p) && Enabled(p, step)
    ensures LaunchesAgree(After(p, step))
  {
    var q := After(p, step);
    hide After;
    forall k | k in q.calls && q.calls[k].Launching?
      ensures !LiveContent(q, q.calls[k].server)
    {
      var server := q.calls[k].server;
      LaunchingAfter(p, step, k);
      assert Locks(p.calls[k], server);
      if step.Launched? {
        assert Locks(p.calls[step.call], p.calls[step.call].server);
      }
      if LiveContent(q, server) {
        ContentAfter(p, step, server);
        OnlyLaunchesLive(p, step, q.slots[server].content.value);
        assert false;
      }
    }
  }

  lemma StepKeepsReaper(p: Pool, step: Step)
    requires Inv(p) && Enabled(p, step)
    ensures ReaperAgrees(After(p, step))
  {
  }

  lemma StepKeepsReach(p: Pool, step: Step)
    requires Inv(p) && Enabled(p, step)
    ensures LiveAreReachable(After(p, step))
  {
  }

  lemma StepKeepsInv(p: Pool, step: Step)
    requires Inv(p) && Enabled(p, step)
    ensures Inv(After(p, step))
  {
    StepKeepsCallsLock(p, step);
    StepKeepsReaperLocks(p, step);
    StepKeepsLocksHeld(p, step);
    StepKeepsReferences(p, step);
    StepKeepsLaunches(p, step);
    StepKeepsReaper(p, step);
    StepKeepsReach(p, step);
    hide ReferencesAgree; hide LaunchesAgree; hide ReaperAgrees; hide LiveAreReachable; hide After; hide Enabled;
    hide CallsLock; hide ReaperLocks; hide LocksAreHeld;
  }

  lemma {:induction false} RunKeepsInv(p: Pool, steps: seq<Step>)
    requires Inv(p) && IsRun(p, steps)
    ensures Inv(Final(p, steps))
    decreases |steps|
  {
    if steps != [] {
      StepKeepsInv(p, steps[0]);
      hide Inv;
      RunKeepsInv(After(p, steps[0]), steps[1..]);
    }
  }

  // -------------------------------------------------------------- what it is for

  /** In every state any interleaving reaches, each server has at most one live connection. */
  lemma AtMostOneLive(steps: seq<Step>, c: ConnectionId, d: ConnectionId)
    requires IsRun(EMPTY, steps)
    ensures var p := Final(EMPTY, steps);
            Alive(p, c) && Alive(p, d) && p.connections[c].server == p.connections[d].server ==> c == d
  {
    EmptyIsInv();
    RunKeepsInv(EMPTY, steps);
    OneIsReachable(Final(EMPTY, steps), c, d);
  }

  lemma OneIsReachable(p: Pool, c: ConnectionId, d: ConnectionId)
    requires Inv(p)
    ensures Alive(p, c) && Alive(p, d) && p.connections[c].server == p.connections[d].server ==> c == d
  {
  }

  /** A connection that was live before a step and is not after it died on its own, or was shut
      down by the reaper while no call held it. */
  lemma ReaperSparesHeld(p: Pool, step: Step, c: ConnectionId)
    requires Inv(p) && Enabled(p, step) && Alive(p, c) && !Alive(After(p, step), c)
    ensures step == Die(c) || (step == Closed && p.reaper.connection == c && Holders(p, c) == {})
  {
    hide LocksAgree; hide ReferencesAgree; hide LaunchesAgree; hide LiveAreReachable; hide Unlocked; hide Expired;
  }

  /** A live connection leaves its slot only into the reaper's hands, and only when it was idle and
      nobody holds it. */
  lemma LiveLeavesOnlyUnheld(p: Pool, step: Step, server: string, c: ConnectionId)
    requires Inv(p) && Enabled(p, step) && ContentOf(p, server) == Some(c) && Alive(p, c)
    requires ContentOf(After(p, step), server) != Some(c)
    ensures step == Judge(true) && Holders(p, c) == {} && After(p, step).reaper == Closing(server, c)
  {
    hide LocksAgree; hide LaunchesAgree; hide LiveAreReachable; hide ReaperAgrees; hide Unlocked;
    LiveIsNotReplaced(p, step, server, c);
  }

  lemma LiveIsNotReplaced(p: Pool, step: Step, server: string, c: ConnectionId)
    requires Inv(p) && Enabled(p, step) && ContentOf(p, server) == Some(c) && Alive(p, c)
    ensures step.Launched? ==> p.calls[step.call].server != server
    ensures step.Clean? && p.calls[step.call].server == server ==> p.calls[step.call].connection != c
  {
  }

  /** What the reaper does in a slot. A live connection that was used lately stays; an idle one leaves
      exactly when no call holds it, and is then shut down; a dead one leaves in any case, and is
      shut down unless some call still holds it. No other slot changes. */
  lemma ReaperJudges(p: Pool, idle: bool, server: string, c: ConnectionId)
    requires Enabled(p, Judge(idle)) && p.reaper == Visiting(server) && ContentOf(p, server) == Some(c)
    ensures var q := After(p, Judge(idle));
            && q.connections == p.connections && q.calls == p.calls
            && (Alive(p, c) && !idle ==> ContentOf(q, server) == Some(c) && q.reaper == Resting)
            && (Alive(p, c) && idle ==> (ContentOf(q, server) != Some(c) <==> Holders(p, c) == {}))
            && (!Alive(p, c) ==> ContentOf(q, server) == None)
            && q.reaper == (if ContentOf(q, server).None? && Holders(p, c) == {} then Closing(server, c) else Resting)
            && (q.reaper == Resting ==> Unlocked(q, server))
            && forall other :: other != server ==> ContentOf(q, other) == ContentOf(p, other)
  {
  }

  /** An empty slot it leaves as it was, unlocked. */
  lemma ReaperPassesBy(p: Pool, idle: bool)
    requires Enabled(p, Judge(idle)) && ContentOf(p, p.reaper.server) == None
    ensures var q := After(p, Judge(idle));
            && q.connections == p.connections && q.calls == p.calls && q.reaper == Resting
            && Unlocked(q, p.reaper.server) && forall other :: ContentOf(q, other) == ContentOf(p, other)
  {
  }

  /** What it shuts down is dead afterwards, and its slot is free for the next call. */
  lemma ReaperShutsDown(p: Pool)
    requires Inv(p) && Enabled(p, Closed)
    ensures var q := After(p, Closed);
            && !Alive(q, p.reaper.connection) && q.reaper == Resting && Unlocked(q, p.reaper.server)
            && ContentOf(q, p.reaper.server) == None
            && forall c :: c != p.reaper.connection ==> (Alive(q, c) <==> Alive(p, c))
  {
    hide LocksAgree; hide ReferencesAgree; hide LaunchesAgree; hide LiveAreReachable; hide Holders;
  }

  /** A call comes to use a live connection to its own server, the one its slot holds, and leaves the
      slot unlocked. */
  lemma CallsUseLiveConnections(p: Pool, step: Step, k: CallId)
    requires Inv(p) && Enabled(p, step) && k in After(p, step).calls && After(p, step).calls[k].Using?
    requires k !in p.calls || !p.calls[k].Using?
    ensures var q := After(p, step);
            var server, c := q.calls[k].server, q.calls[k].connection;
            && k in p.calls && !p.calls[k].Over? && p.calls[k].server == server
            && Alive(q, c) && q.connections[c].server == server
            && ContentOf(q, server) == Some(c) && Unlocked(q, server)
  {
    hide LocksAgree; hide LaunchesAgree; hide LiveAreReachable; hide ReaperAgrees; hide Expired; hide Holders;
  }

  /** A launch that fails leaves the slot's content as it was, and unlocks it. */
  lemma FailedLaunchUnlocks(p: Pool, k: CallId)
    requires Enabled(p, LaunchFailed(k))
    ensures var q := After(p, LaunchFailed(k));
            && q.connections == p.connections && q.calls[k] == Over && Unlocked(q, p.calls[k].server)
            && forall server :: ContentOf(q, server) == ContentOf(p, server)
  {
  }

  /** A failed call's clean-up takes out its own dead connection and nothing else: whatever
      replaced it meanwhile stays, in this slot and in every other. */
  lemma CleanUpRemovesOnlyItsOwn(p: Pool, k: CallId, server: string)
    requires Inv(p) && Enabled(p, Clean(k))
    ensures var own := p.calls[k].connection;
            && !Alive(p, own)
            && ContentOf(After(p, Clean(k)), server)
               == if server == p.calls[k].server && ContentOf(p, server) == Some(own) then None
                  else ContentOf(p, server)
    ensures After(p, Clean(k)).connections == p.connections
  {
    hide LocksAgree; hide LaunchesAgree; hide LiveAreReachable; hide ReaperAgrees;
  }

  /** While a call uses a live connection, the next call to that server shares it instead of
      launching another. */
  lemma HeldConnectionsAreShared(p: Pool, k: CallId, other: CallId, c: ConnectionId)
    requires Inv(p) && k in p.calls && Holds(p.calls[k], c) && Alive(p, c)
    requires other in p.calls && p.calls[other].Looking? && p.calls[other].server == p.calls[k].server
    ensures Enabled(p, Reuse(other)) && After(p, Reuse(other)).calls[other] == Using(p.calls[k].server, c)
    ensures !Enabled(p, Launch(other))
  {
    hide LocksAgree; hide LaunchesAgree;
    assert k in Holders(p, c);
  }

  /** Whoever holds a slot's lock can take its next step without waiting for anybody. */
  lemma LockHolderCanMove(p: Pool, server: string) returns (step: Step)
    requires Inv(p) && server in p.slots && p.slots[server].lock.Some?
    ensures Enabled(p, step)
    ensures match p.slots[server].lock.value
            case Call(k) => step == Reuse(k) || step == Launch(k) || step == LaunchFailed(k) || step == Clean(k)
            case Reaper => step == Judge(false) || step == Closed
  {
    match p.slots[server].lock.value
    case Reaper => step := if p.reaper.Closing? then Closed else Judge(false);
    case Call(k) =>
      var phase := p.calls[k];
      step := if phase.Cleaning? then Clean(k)
              else if phase.Launching? then LaunchFailed(k)
              else if LiveContent(p, server) then Reuse(k) else Launch(k);
  }
}
