/** File ownership: which task may write where. */
module Ledgers {
  import opened Dag
  import opened Tasks

  /** A normalised path, component by component; the workspace root has none. */
  type Path = seq<string>

  datatype WriteConflict = WriteConflict(path: Path, heldBy: TaskId, requestedBy: TaskId)

  /** One contains the other; the root contains everything. */
  predicate Overlaps(a: Path, b: Path) {
    a <= b || b <= a
  }

  /** The file, or directory, `f` lies under `path`, or is what it names. */
  predicate Under(f: Path, path: Path) {
    |path| <= |f| && f[..|path|] == path
  }

  /** Two paths overlap exactly when some file lies under both. */
  lemma OverlapIsSharing(a: Path, b: Path)
    ensures Overlaps(a, b) <==> exists f :: Under(f, a) && Under(f, b)
  {
    assert Under(a, a) && Under(b, b);
    assert a <= b ==> Under(b, a);
    assert b <= a ==> Under(a, b);
    if f :| Under(f, a) && Under(f, b) {
      assert f[..|a|] == a && f[..|b|] == b;
      if |a| <= |b| {
        assert b[..|a|] == a;
      } else {
        assert a[..|b|] == b;
      }
    }
  }

  type Claims = map<Path, TaskId>

  /** No two tasks hold overlapping paths. */
  ghost predicate Exclusive(claims: Claims) {
    forall p, q :: p in claims && q in claims && Overlaps(p, q) ==> claims[p] == claims[q]
  }

  /** Some path another task holds overlaps `path`. */
  ghost predicate HeldByAnother(claims: Claims, task: TaskId, path: Path) {
    exists q :: q in claims && claims[q] != task && Overlaps(path, q)
  }

  /** That is: some file under `path` lies under a path another task holds. */
  lemma HeldIsSharing(claims: Claims, task: TaskId, path: Path)
    ensures HeldByAnother(claims, task, path)
       <==> exists q, f :: q in claims && claims[q] != task && Under(f, path) && Under(f, q)
  {
    if HeldByAnother(claims, task, path) {
      var q :| q in claims && claims[q] != task && Overlaps(path, q);
      OverlapIsSharing(path, q);
    }
    if q, f :| q in claims && claims[q] != task && Under(f, path) && Under(f, q) {
      OverlapIsSharing(path, q);
    }
  }

  function Without(claims: Claims, task: TaskId): Claims {
    map p | p in claims && claims[p] != task :: claims[p]
  }

  function WithoutAll(claims: Claims, tasks: seq<TaskId>): Claims {
    map p | p in claims && claims[p] !in tasks :: claims[p]
  }

  function Granted(claims: Claims, task: TaskId, paths: seq<Path>): Claims {
    claims + map p | p in paths :: task
  }

  lemma GrantKeepsExclusive(claims: Claims, task: TaskId, paths: seq<Path>)
    requires Exclusive(claims) && forall p :: p in paths ==> !HeldByAnother(claims, task, p)
    ensures Exclusive(Granted(claims, task, paths))
  {
    var after := Granted(claims, task, paths);
    forall p, q | p in after && q in after && Overlaps(p, q)
      ensures after[p] == after[q]
    {
      if p in paths && q !in paths {
        assert !HeldByAnother(claims, task, p);
      }
      if q in paths && p !in paths {
        assert !HeldByAnother(claims, task, q);
      }
    }
  }

  /** Granting and then releasing leaves what the others hold. */
  lemma GrantThenRelease(claims: Claims, task: TaskId, paths: seq<Path>)
    requires forall p :: p in paths ==> !HeldByAnother(claims, task, p)
    ensures Without(Granted(claims, task, paths), task) == Without(claims, task)
  {
    forall p | p in claims && claims[p] != task
      ensures p !in paths
    {
      assert Overlaps(p, p);
      assert p in paths ==> HeldByAnother(claims, task, p);
    }
  }

  class OwnershipLedger {
    var claims: Claims

    ghost predicate Valid()
      reads this
    {
      Exclusive(claims)
    }

    constructor ()
      ensures Valid() && claims == map[]
    {
      claims := map[];
    }

    /** Claim `paths` for `task`, all or nothing; a refusal names the first path that another task
        holds, and who. */
    method Claim(task: TaskId, paths: seq<Path>) returns (conflict: Option<WriteConflict>)
      requires Valid()
      modifies this
      ensures Valid()
      ensures conflict.None? <==> forall p :: p in paths ==> !HeldByAnother(old(claims), task, p)
      ensures claims == if conflict.None? then Granted(old(claims), task, paths) else old(claims)
      ensures conflict.Some? ==>
                && conflict.value.path in paths && conflict.value.requestedBy == task != conflict.value.heldBy
                && exists q ::
                     q in old(claims) && old(claims)[q] == conflict.value.heldBy && Overlaps(conflict.value.path, q)
      ensures conflict.Some? ==>
                exists i :: && 0 <= i < |paths| && paths[i] == conflict.value.path
                            && forall j :: 0 <= j < i ==> !HeldByAnother(old(claims), task, paths[j])
    {
      for i := 0 to |paths|
        invariant forall j :: 0 <= j < i ==> !HeldByAnother(claims, task, paths[j])
      {
        var left := claims.Keys;
        while left != {}
          invariant left <= claims.Keys
          invariant forall q :: q in claims && q !in left && claims[q] != task ==> !Overlaps(paths[i], q)
        {
          var held :| held in left;
          left := left - {held};
          if claims[held] != task && Overlaps(paths[i], held) {
            assert HeldByAnother(claims, task, paths[i]);
            return Some(WriteConflict(paths[i], claims[held], task));
          }
        }
      }
      GrantKeepsExclusive(claims, task, paths);
      claims := Granted(claims, task, paths);
      return None;
    }

    /** Release everything `task` holds. */
    method Release(task: TaskId)
      requires Valid()
      modifies this
      ensures Valid() && claims == Without(old(claims), task)
    {
      claims := Without(claims, task);
    }
  }
}
