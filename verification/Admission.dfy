/** Which ready tasks may run together: those whose predicted writes do not overlap. */
module Admission {
  import opened Dag
  import opened Tasks
  import opened Ledgers
  import opened Attempts

  function OutputsOf(rows: Rows, ids: seq<TaskId>): seq<string> {
    if ids == [] then []
    else (if ids[0] in rows then rows[ids[0]].artifacts else []) + OutputsOf(rows, ids[1..])
  }

  /** The paths a task is predicted to write, given what its dependencies changed. */
  function WritesOf(env: Env, rows: Rows, id: TaskId): seq<Path>
    requires id in rows
  {
    env.writes(id, OutputsOf(rows, rows[id].spec.dependencies))
  }

  /** Every writing member of the wave holds the paths it is predicted to write. */
  ghost predicate HoldsItsPaths(env: Env, rows: Rows, claims: Claims, wave: seq<TaskId>) {
    forall t, p :: t in wave && t in rows && !rows[t].spec.risk.ReadOnly? && p in WritesOf(env, rows, t) ==>
      p in claims && claims[p] == t
  }

  /** The task is predicted to write nothing. */
  predicate WritesNothing(env: Env, rows: Rows, t: TaskId) {
    t in rows && (rows[t].spec.risk.ReadOnly? || WritesOf(env, rows, t) == [])
  }

  /** All of these that write nothing are admitted. */
  ghost predicate FreeAdmitted(env: Env, rows: Rows, ready: seq<TaskId>, admitted: seq<TaskId>) {
    forall t :: t in ready && WritesNothing(env, rows, t) ==> t in admitted
  }

  lemma NobodyFree(env: Env, rows: Rows)
    ensures FreeAdmitted(env, rows, [], [])
  {
  }

  lemma OneMoreFree(env: Env, rows: Rows, ready: seq<TaskId>, i: nat, before: seq<TaskId>, admitted: seq<TaskId>)
    requires i < |ready| && FreeAdmitted(env, rows, ready[..i], before)
    requires before <= admitted && (WritesNothing(env, rows, ready[i]) ==> ready[i] in admitted)
    ensures FreeAdmitted(env, rows, ready[..i + 1], admitted)
  {
    hide WritesNothing;
  }

  /** The task could be admitted on its own: it writes nothing, or nothing somebody else holds. */
  ghost predicate CanGo(env: Env, rows: Rows, claims: Claims, t: TaskId) {
    && t in rows
    && (rows[t].spec.risk.ReadOnly? || forall p :: p in WritesOf(env, rows, t) ==> !HeldByAnother(claims, t, p))
  }

  ghost predicate SomeCanGo(env: Env, rows: Rows, claims: Claims, ready: seq<TaskId>) {
    exists i :: 0 <= i < |ready| && CanGo(env, rows, claims, ready[i])
  }

  /** Nobody holds a path that any task could be predicted to write. */
  ghost predicate Unhindered(env: Env, claims: Claims) {
    forall id, outputs, p {:trigger HeldByAnother(claims, id, p), env.writes(id, outputs)} ::
      p in env.writes(id, outputs) ==> !HeldByAnother(claims, id, p)
  }

  lemma UnhinderedCanGo(env: Env, rows: Rows, claims: Claims, ready: seq<TaskId>)
    requires Unhindered(env, claims) && ready != [] && ready[0] in rows
    ensures SomeCanGo(env, rows, claims, ready)
  {
    assert CanGo(env, rows, claims, ready[0]);
  }

  lemma StaysUnhindered(env: Env, claims: Claims, ran: seq<TaskId>)
    requires Unhindered(env, claims)
    ensures Unhindered(env, WithoutAll(claims, ran))
  {
    forall id, outputs, p | p in env.writes(id, outputs)
      ensures !HeldByAnother(WithoutAll(claims, ran), id, p)
    {
      assert !HeldByAnother(claims, id, p);
    }
  }

  lemma NoClaimsUnhindered(env: Env)
    ensures Unhindered(env, map[])
  {
  }

  /** No file lies under a predicted path of each of two writing members. */
  ghost predicate WriteApart(env: Env, rows: Rows, wave: seq<TaskId>) {
    forall s, t :: s in wave && t in wave && s != t ==> MembersApart(env, rows, s, t)
  }

  ghost predicate MembersApart(env: Env, rows: Rows, s: TaskId, t: TaskId) {
    s in rows && t in rows && !rows[s].spec.risk.ReadOnly? && !rows[t].spec.risk.ReadOnly? ==>
      forall p, q, f :: p in WritesOf(env, rows, s) && q in WritesOf(env, rows, t) ==> !(Under(f, p) && Under(f, q))
  }

  /** Two writing members of a wave never write the same file. */
  lemma WaveWritesApart(env: Env, rows: Rows, claims: Claims, wave: seq<TaskId>)
    requires Exclusive(claims) && HoldsItsPaths(env, rows, claims, wave)
    ensures WriteApart(env, rows, wave)
  {
    hide WritesOf;
    forall s, t | s in wave && t in wave && s != t
      ensures MembersApart(env, rows, s, t)
    {
      if s in rows && t in rows && !rows[s].spec.risk.ReadOnly? && !rows[t].spec.risk.ReadOnly? {
        forall p, q, f | p in WritesOf(env, rows, s) && q in WritesOf(env, rows, t)
          ensures !(Under(f, p) && Under(f, q))
        {
          assert claims[p] == s && claims[q] == t;
          OverlapIsSharing(p, q);
        }
      }
    }
  }

  lemma NobodyWrites(env: Env, rows: Rows)
    ensures WriteApart(env, rows, [])
  {
  }

  /** What a task's prediction is told: everything its dependencies changed. */
  lemma {:induction false} OutputsAre(rows: Rows, ids: seq<TaskId>, x: string)
    ensures x in OutputsOf(rows, ids) <==> exists d :: d in ids && d in rows && x in rows[d].artifacts
  {
    if ids != [] {
      OutputsAre(rows, ids[1..], x);
    }
  }

  lemma AdmitKeepsPaths(env: Env, rows: Rows, claims: Claims, wave: seq<TaskId>, id: TaskId)
    requires id in rows && id !in wave && HoldsItsPaths(env, rows, claims, wave)
    requires forall p :: p in WritesOf(env, rows, id) ==> !HeldByAnother(claims, id, p)
    ensures HoldsItsPaths(env, rows, Granted(claims, id, WritesOf(env, rows, id)), wave + [id])
    ensures WithoutAll(Granted(claims, id, WritesOf(env, rows, id)), wave + [id]) == WithoutAll(claims, wave + [id])
  {
    hide WritesOf;
    var paths := WritesOf(env, rows, id);
    forall p | p in claims && claims[p] != id
      ensures p !in paths
    {
      assert Overlaps(p, p);
      assert p in paths ==> HeldByAnother(claims, id, p);
    }
  }

  lemma WithoutMore(a: Claims, b: Claims, wave: seq<TaskId>, id: TaskId)
    requires WithoutAll(a, wave) == WithoutAll(b, wave)
    ensures WithoutAll(a, wave + [id]) == WithoutAll(b, wave + [id])
  {
    assert WithoutAll(a, wave + [id]) == Without(WithoutAll(a, wave), id);
    assert WithoutAll(b, wave + [id]) == Without(WithoutAll(b, wave), id);
  }
}
