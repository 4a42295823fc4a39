/** What a failing operation leaves behind: exactly when it does not leave the store as it was. */
module Failures {
  import opened StoreTypes
  import opened StoreSpec
  import opened StoreInvariant
  import opened Replacement
  import opened SmallStore

  /** Under LRU, another file is in front of p. */
  predicate Behind(s: Store, p: Path) {
    s.policy == Lru && s.order != [] && s.order[0] != p
  }

  /** The file that an operation finds moves to the front before its tests; lock and unlock clear
      the write permission before theirs; and a lock that is refused queues the client. */
  predicate Disturbs(s: Store, op: Op) {
    match op
    case Open(p, flags, _) => p in s.tab && ValidFlags(flags) && !HasCreate(flags) && Behind(s, p)
    case Read(p, _) => p in s.tab && Behind(s, p)
    case Close(p, _) => p in s.tab && Behind(s, p)
    case Lock(p, c) =>
      && p in s.tab
      && (Behind(s, p) || s.tab[p].canWrite != NOBODY || (LockedByOther(s.tab[p], c) && c !in s.tab[p].waiters))
    case Unlock(p, _) => p in s.tab && (Behind(s, p) || s.tab[p].canWrite != NOBODY)
    case _ => false
  }

  lemma {:induction false} TouchChanges(s: Store, p: Path)
    requires Shape(s) && p in s.tab && p in s.order
    ensures Touch(s, p) == s <==> !Behind(s, p)
  {
    if s.policy == Lru {
      var moved := MoveToFront(s.order, p);
      assert moved[0] == p;
      assert s.order[0] == p ==> moved == [s.order[0]] + s.order[1..] == s.order;
    }
  }

  lemma {:induction false} EnterChanges(s: Store, p: Path, e: Effect)
    requires Inv(s) && p in s.tab
    ensures p in s.order
    ensures Enter(s, p, e).1 == Apply(e, p, s.tab[p]).1
    ensures Enter(s, p, e).0 == s <==> !Behind(s, p) && Apply(e, p, s.tab[p]).0 == s.tab[p]
  {
    TouchChanges(s, p);
    var f := Apply(e, p, s.tab[p]).0;
    assert s.tab[p := f][p] == f;
    assert f == s.tab[p] ==> s.tab[p := f] == s.tab;
    assert Enter(s, p, e).0 == Touch(s, p).(tab := s.tab[p := f]);
    assert Touch(s, p) == s.(order := Touch(s, p).order);
  }

  /** A failing effect changes its file only in two cases. */
  lemma {:induction false} FailedEffect(e: Effect, p: Path, f: FileState)
    requires Apply(e, p, f).1.Fail?
    ensures Apply(e, p, f).0 == f <==>
      !((e.LockIt? || e.UnlockIt?) && f.canWrite != NOBODY) &&
      !(e.LockIt? && LockedByOther(f, e.c) && e.c !in f.waiters)
  {
    if e.LockIt? && LockedByOther(f, e.c) && e.c !in f.waiters {
      assert |Apply(e, p, f).0.waiters| == |f.waiters| + 1;
    }
  }

  lemma {:induction false} FailedEnter(s: Store, p: Path, e: Effect)
    requires Inv(s) && p in s.tab && Enter(s, p, e).1.Fail?
    ensures Enter(s, p, e).0 == s <==>
      && !Behind(s, p)
      && !((e.LockIt? || e.UnlockIt?) && s.tab[p].canWrite != NOBODY)
      && !(e.LockIt? && LockedByOther(s.tab[p], e.c) && e.c !in s.tab[p].waiters)
  {
    EnterChanges(s, p, e);
    FailedEffect(e, p, s.tab[p]);
  }

  lemma {:induction false} FailedOpen(s: Store, p: Path, flags: int, c: Client)
    requires Inv(s) && ExecOpen(s, p, flags, c).1.Fail?
    ensures ExecOpen(s, p, flags, c).0 == s <==> !Disturbs(s, Op.Open(p, flags, c))
  {
    if ValidFlags(flags) && p in s.tab && !HasCreate(flags) {
      FailedEnter(s, p, OpenIt(c, HasLock(flags), true, None));
    } else if ValidFlags(flags) && p !in s.tab && HasCreate(flags) {
      CreateAnswers(s, p, flags, c);
    }
  }

  lemma {:induction false} CreateAnswers(s: Store, p: Path, flags: int, c: Client)
    requires Inv(s) && ValidFlags(flags) && p !in s.tab && HasCreate(flags)
    ensures ExecOpen(s, p, flags, c).1.Opened?
  {
  }

  /** A failing operation changes the store exactly in the listed cases. */
  lemma {:induction false} FailureChanges(s: Store, op: Op)
    requires Inv(s) && Named(op) && Exec(s, op).1.Fail?
    ensures Exec(s, op).0 == s <==> !Disturbs(s, op)
  {
    match op
    case Open(p, flags, c) => FailedOpen(s, p, flags, c);
    case Read(p, c) => if p in s.tab { FailedEnter(s, p, ReadIt(c)); }
    case Append(p, content, c, write) => FailedAppendChangesNothing(s, p, content, c, write);
    case Lock(p, c) => if p in s.tab { FailedEnter(s, p, LockIt(c)); }
    case Unlock(p, c) => if p in s.tab { FailedEnter(s, p, UnlockIt(c)); }
    case Close(p, c) => if p in s.tab { FailedEnter(s, p, CloseIt(c)); }
    case _ =>
  }

  /** Client 9 creates and locks a file and may write it. Client 10, which has no part in it, is
      refused an unlock, and after that 9 may not write any more. */
  lemma {:induction false} RefusedUnlockSpoilsWrite()
    ensures var created := Run(NEW_STORE, [Op.Open("f", O_CREATE + O_LOCK, 9)]);
      var (t, r) := Exec(created, Op.Unlock("f", 10));
      && r == Fail(FileIsLocked) && t != created
      && Exec(created, Op.Append("f", "x", 9, true)).1.Files?
      && Exec(t, Op.Append("f", "x", 9, true)).1 == Fail(FileNoWrite)
  {
    var create := Op.Open("f", O_CREATE + O_LOCK, 9);
    assert [create][..0] == [] && Run(NEW_STORE, []) == NEW_STORE;
    OpenCreates();
    StoreWithShape(9, []);
    StoreWithShape(NOBODY, []);
    var created := StoreWith(9, []);
    assert Run(NEW_STORE, [create]) == created;
    var f := created.tab["f"];
    assert ApplyUnlock(10, f) == (f.(canWrite := NOBODY), Fail(FileIsLocked));
    assert created.tab["f" := f.(canWrite := NOBODY)] == StoreWith(NOBODY, []).tab;
    assert Exec(created, Op.Unlock("f", 10)) == (StoreWith(NOBODY, []), Fail(FileIsLocked));
    assert created.tab["f"].canWrite != StoreWith(NOBODY, []).tab["f"].canWrite;
    assert !NeedsRoom(created, "x");
  }
}
