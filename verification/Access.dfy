/** The access rules as the clients see them. For every path an account is kept of nothing but the
    requests and their answers: who holds the lock, who waits for it, who has opened the file, and
    who may write it. The store is proved to agree with the account after every run, and every
    answer is proved to be the one that the account and the rules demand. */
module Access {
  import opened StoreTypes
  import opened StoreSpec
  import opened StoreInvariant
  import opened Sequences
  import opened Replacement
  import opened Locks
  import opened History

  // ---------- the account ----------

  datatype Account = Absent | Present(holder: Client, queue: seq<Client>, openers: set<Client>, writer: Client)

  /** Whether a bit of the flags is set. */
  predicate Asks(flags: int, bit: int)
    requires bit > 0
  {
    (flags / bit) % 2 == 1
  }

  predicate Mentioned(files: seq<ResultFile>, p: Path) {
    exists i :: 0 <= i < |files| && files[i].path == p
  }

  function IfLock(flags: int, c: Client, other: Client): Client {
    if Asks(flags, O_LOCK) then c else other
  }

  /** A client departs: the first in the queue gets the lock it held. */
  function WithoutClient(a: Account, c: Client): Account
    requires a.Present?
  {
    var handsOn := a.holder == c && a.queue != [];
    Present(
      if a.holder != c then a.holder else if handsOn then a.queue[0] else NOBODY,
      Without(if handsOn then a.queue[1..] else a.queue, [c]),
      a.openers - {c},
      if a.writer == c then NOBODY else a.writer)
  }

  /** The account of p after a request for p and its answer. */
  function NoteOwn(a: Account, op: Op, r: Reply): Account {
    match (op, r)
    case (Open(_, flags, c), Opened(_)) =>
      if Asks(flags, O_CREATE) then Present(IfLock(flags, c, NOBODY), [], {c}, IfLock(flags, c, NOBODY))
      else if a.Absent? then a
      else a.(holder := IfLock(flags, c, a.holder), openers := a.openers + {c}, writer := NOBODY)
    case (Remove(_, _), Removed(_)) => Absent
    case (Read(_, _), Data(_)) => if a.Absent? then a else a.(writer := NOBODY)
    case (Append(_, _, _, _), Files(_)) => if a.Absent? then a else a.(writer := NOBODY)
    case (Lock(_, c), _) =>
      if a.Absent? then a
      else if r == Done then a.(holder := c, writer := NOBODY)
      else if r == Fail(FileIsLocked) then a.(queue := a.queue + [c], writer := NOBODY)
      else a.(writer := NOBODY)
    case (Unlock(_, _), Unlocked(None)) => if a.Absent? then a else a.(holder := NOBODY, writer := NOBODY)
    case (Unlock(_, _), Unlocked(Some(d))) =>
      if a.Absent? then a else a.(holder := d, queue := Remove1(a.queue, d), writer := NOBODY)
    case (Unlock(_, _), _) => if a.Absent? then a else a.(writer := NOBODY)
    case (Close(_, c), Done) => if a.Absent? then a else a.(openers := a.openers - {c})
    case _ => a
  }

  function Note(a: Account, op: Op, r: Reply, p: Path): Account {
    if Mentioned(EvictedFiles(op, r), p) then Absent
    else if op.EvictClient? then (if a.Absent? then a else WithoutClient(a, op.c))
    else if op.ReadN? || op.path != p then a
    else NoteOwn(a, op, r)
  }

  ghost function AccountOf(s: Store, ops: seq<Op>, p: Path): Account
    requires Shape(s)
    decreases |ops|
  {
    if ops == [] then Absent
    else
      var n := |ops| - 1;
      Note(AccountOf(s, ops[..n], p), ops[n], ReplyAt(s, ops, n), p)
  }

  predicate FileAgrees(a: Account, f: FileState) {
    && a.Present? && f.lockedBy == a.holder && f.waiters == a.queue && f.canWrite == a.writer
    && a.openers == set c | c in f.openers
  }

  predicate Agrees(a: Account, s: Store, p: Path) {
    if p in s.tab then FileAgrees(a, s.tab[p]) else a.Absent?
  }

  // ---------- one operation ----------

  lemma {:induction false} OpenersCons(c: Client, xs: seq<Client>)
    ensures (set x | x in [c] + xs) == {c} + set x | x in xs
  {
  }

  lemma {:induction false} OpenersLess(c: Client, xs: seq<Client>)
    requires NoDup(xs)
    ensures (set x | x in Remove1(xs, c)) == (set x | x in xs) - {c}
  {
    NoDupRemove1(xs, c);
  }

  lemma {:induction false} FlagBits(flags: int)
    requires ValidFlags(flags)
    ensures HasCreate(flags) == Asks(flags, O_CREATE) && HasLock(flags) == Asks(flags, O_LOCK)
  {
  }

  /** Read, lock, unlock and close, and what they do to the file. */
  predicate Delivers(op: Op, p: Path, e: Effect) {
    match op
    case Read(q, c) => q == p && e == ReadIt(c)
    case Lock(q, c) => q == p && e == LockIt(c)
    case Unlock(q, c) => q == p && e == UnlockIt(c)
    case Close(q, c) => q == p && e == CloseIt(c)
    case _ => false
  }

  lemma {:induction false} NoteEffect(a: Account, op: Op, e: Effect, p: Path, f: FileState)
    requires FileInv(f) && FileAgrees(a, f) && Delivers(op, p, e)
    ensures var (g, r) := Apply(e, p, f); FileAgrees(NoteOwn(a, op, r), g)
  {
    OpenersLess(e.c, f.openers);
  }

  lemma {:induction false} EnterFile(s: Store, p: Path, e: Effect)
    requires Inv(s) && p in s.tab
    ensures Enter(s, p, e).0.tab == s.tab[p := Apply(e, p, s.tab[p]).0]
    ensures Enter(s, p, e).1 == Apply(e, p, s.tab[p]).1
  {
  }

  lemma {:induction false} NoteEnter(a: Account, s: Store, op: Op, e: Effect, p: Path, q: Path)
    requires Inv(s) && Agrees(a, s, q) && Delivers(op, p, e)
    ensures var (t, r) := Enter(s, p, e); Agrees(Note(a, op, r, q), t, q)
  {
    if p in s.tab {
      EnterFile(s, p, e);
      if p == q { NoteEffect(a, op, e, q, s.tab[q]); }
    }
  }

  lemma {:induction false} ResultsMention(tab: map<Path, FileState>, vs: seq<Path>, q: Path)
    requires forall v :: v in vs ==> v in tab
    ensures Mentioned(Reverse(Results(tab, vs)), q) <==> q in vs
  {
    var rs := Results(tab, vs);
    ReverseIn(rs);
    if Mentioned(Reverse(rs), q) {
      var i :| 0 <= i < |Reverse(rs)| && Reverse(rs)[i].path == q;
      assert Reverse(rs)[i] in Reverse(rs);
      ResultsIn(tab, vs, Reverse(rs)[i]);
    }
    if q in vs {
      ResultsHas(tab, vs, q);
      var rf := ResultFile(q, tab[q].data, tab[q].waiters);
      var i :| 0 <= i < |Reverse(rs)| && Reverse(rs)[i] == rf;
    }
  }

  lemma {:induction false} ResultsHas(tab: map<Path, FileState>, vs: seq<Path>, q: Path)
    requires (forall v :: v in vs ==> v in tab) && q in vs
    ensures ResultFile(q, tab[q].data, tab[q].waiters) in Results(tab, vs)
  {
    if vs[0] != q { ResultsHas(tab, vs[1..], q); }
  }

  lemma {:induction false} NoteWritten(a: Account, s: Store, t: Store, op: Op, vs: seq<Path>, files: seq<ResultFile>,
      q: Path)
    requires Agrees(a, s, q) && op.Append? && op.path in s.tab && op.path !in vs
    requires Mentioned(files, q) <==> q in vs
    requires var f := s.tab[op.path];
      t.tab == (s.tab - (set v | v in vs))[op.path := f.(data := f.data + op.content, canWrite := NOBODY)]
    ensures Agrees(Note(a, op, Files(files), q), t, q)
  {
  }

  lemma {:induction false} NoteAppend(a: Account, s: Store, op: Op, q: Path)
    requires Inv(s) && Agrees(a, s, q) && op.Append?
    ensures var (t, r) := Exec(s, op); Agrees(Note(a, op, r, q), t, q)
  {
    FailedAppendChangesNothing(s, op.path, op.content, op.c, op.write);
    var (t, r) := Exec(s, op);
    if r.Files? {
      AppendSucceeds(s, op.path, op.content, op.c, op.write);
      AppendEvictsLeast(s, op.path, op.content, op.c, op.write);
      var vs := Candidates(s.order, op.path)[..Evictions(s, op.path, op.content)];
      ResultsMention(s.tab, vs, q);
      NoteWritten(a, s, t, op, vs, r.files, q);
    }
  }

  lemma {:induction false} NoteNew(a: Account, s: Store, t: Store, p: Path, flags: int, c: Client,
      evicted: Option<ResultFile>, q: Path)
    requires Agrees(a, s, q) && p !in s.tab && ValidFlags(flags) && HasCreate(flags)
    requires var w := if HasLock(flags) then c else NOBODY;
      && (evicted.Some? ==> evicted.value.path != p)
      && t.tab == (if evicted.Some? then s.tab - {evicted.value.path} else s.tab)[p := FileState("", w, w, [], [c])]
    ensures Agrees(Note(a, Op.Open(p, flags, c), Opened(evicted), q), t, q)
  {
    FlagBits(flags);
    var files := EvictedFiles(Op.Open(p, flags, c), Opened(evicted));
    assert evicted.Some? ==> files[0] == evicted.value;
  }

  lemma {:induction false} NoteCreate(a: Account, s: Store, p: Path, flags: int, c: Client, q: Path)
    requires Inv(s) && Agrees(a, s, q) && c != NOBODY
    requires p !in s.tab && ValidFlags(flags) && HasCreate(flags)
    ensures var (t, r) := ExecOpen(s, p, flags, c); Agrees(Note(a, Op.Open(p, flags, c), r, q), t, q)
  {
    var t := ExecOpen(s, p, flags, c).0;
    if s.num == s.maxFiles {
      var (v, s1) := Pick(s, None).value;
      var (s2, rf) := Drop(s1, v);
      OpenNewTab(s2, p, c, HasLock(flags), Some(rf));
      OpenNewAnswers(s2, p, c, HasLock(flags), Some(rf));
      NoteNew(a, s, t, p, flags, c, Some(rf), q);
    } else {
      OpenNewTab(s, p, c, HasLock(flags), None);
      OpenNewAnswers(s, p, c, HasLock(flags), None);
      NoteNew(a, s, t, p, flags, c, None, q);
    }
  }

  lemma {:induction false} OpenNewAnswers(s: Store, p: Path, c: Client, lock: bool, evicted: Option<ResultFile>)
    requires Shape(s) && p !in s.tab && c != NOBODY
    ensures OpenNew(s, p, c, lock, evicted).1 == Opened(evicted)
  {
  }

  lemma {:induction false} OpenEffect(a: Account, p: Path, flags: int, c: Client, f: FileState)
    requires FileAgrees(a, f) && ValidFlags(flags) && !HasCreate(flags)
    ensures var (g, r) := Apply(OpenIt(c, HasLock(flags), true, None), p, f);
      FileAgrees(NoteOwn(a, Op.Open(p, flags, c), r), g) && EvictedFiles(Op.Open(p, flags, c), r) == []
  {
    FlagBits(flags);
    OpenersCons(c, f.openers);
  }

  lemma {:induction false} NoteReopen(a: Account, s: Store, p: Path, flags: int, c: Client, q: Path)
    requires Inv(s) && Agrees(a, s, q) && ValidFlags(flags) && p in s.tab && !HasCreate(flags)
    ensures var (t, r) := Enter(s, p, OpenIt(c, HasLock(flags), true, None));
      Agrees(Note(a, Op.Open(p, flags, c), r, q), t, q)
  {
    EnterFile(s, p, OpenIt(c, HasLock(flags), true, None));
    if p == q { OpenEffect(a, p, flags, c, s.tab[p]); }
  }

  lemma {:induction false} NoteOpen(a: Account, s: Store, p: Path, flags: int, c: Client, q: Path)
    requires Inv(s) && Agrees(a, s, q) && c != NOBODY
    ensures var (t, r) := ExecOpen(s, p, flags, c); Agrees(Note(a, Op.Open(p, flags, c), r, q), t, q)
  {
    if ValidFlags(flags) && p !in s.tab && HasCreate(flags) {
      NoteCreate(a, s, p, flags, c, q);
    } else if ValidFlags(flags) && p in s.tab && !HasCreate(flags) {
      NoteReopen(a, s, p, flags, c, q);
    }
  }

  lemma {:induction false} NoteRemove(a: Account, s: Store, p: Path, c: Client, q: Path)
    requires Inv(s) && Agrees(a, s, q)
    ensures var (t, r) := ExecRemove(s, p, c); Agrees(Note(a, Op.Remove(p, c), r, q), t, q)
  {
  }

  lemma {:induction false} DepartAgrees(a: Account, c: Client, f: FileState)
    requires FileInv(f) && c != NOBODY && FileAgrees(a, f)
    ensures FileAgrees(WithoutClient(a, c), Depart(c, f).0)
  {
    OpenersLess(c, f.openers);
    var left := if f.lockedBy == c && f.waiters != [] then f.waiters[1..] else f.waiters;
    Remove1IsWithout(left, c);
  }

  lemma {:induction false} NoteDeparture(a: Account, s: Store, c: Client, q: Path)
    requires Inv(s) && Agrees(a, s, q) && c != NOBODY
    ensures var (t, r) := ExecEvictClient(s, c); Agrees(Note(a, Op.EvictClient(c), r, q), t, q)
  {
    DepartRestTab(s.tab, s.order, c, []);
    if q in s.tab { DepartAgrees(a, c, s.tab[q]); }
  }

  /** What the account notes of an operation is what the operation did. */
  lemma {:induction false} NoteExec(a: Account, s: Store, op: Op, q: Path)
    requires Inv(s) && Named(op) && Agrees(a, s, q)
    ensures var (t, r) := Exec(s, op); Agrees(Note(a, op, r, q), t, q)
  {
    match op
    case Open(p, flags, c) => NoteOpen(a, s, p, flags, c, q);
    case Read(p, c) => NoteEnter(a, s, op, ReadIt(c), p, q);
    case ReadN(_, _) =>
    case Append(_, _, _, _) => NoteAppend(a, s, op, q);
    case Lock(p, c) => NoteEnter(a, s, op, LockIt(c), p, q);
    case Unlock(p, c) => NoteEnter(a, s, op, UnlockIt(c), p, q);
    case Close(p, c) => NoteEnter(a, s, op, CloseIt(c), p, q);
    case Remove(p, c) => NoteRemove(a, s, p, c, q);
    case EvictClient(c) => NoteDeparture(a, s, c, q);
  }

  // ---------- every run ----------

  /** After every run, whether a file is there, who holds its lock, who waits in which order, who has
      opened it and who may write it are what the requests and their answers say. */
  lemma {:induction false} AccountIsRight(maxSize: nat, maxFiles: nat, policy: Policy, ops: seq<Op>, p: Path)
    requires 0 < maxSize && 0 < maxFiles && AllNamed(ops)
    ensures var s := Empty(maxSize, maxFiles, policy); Agrees(AccountOf(s, ops, p), Run(s, ops), p)
    decreases |ops|
  {
    var s := Empty(maxSize, maxFiles, policy);
    if ops != [] {
      var n := |ops| - 1;
      assert forall op :: op in ops[..n] ==> op in ops;
      AccountIsRight(maxSize, maxFiles, policy, ops[..n], p);
      ReachableInv(maxSize, maxFiles, policy, ops[..n]);
      NoteExec(AccountOf(s, ops[..n], p), Run(s, ops[..n]), ops[n], p);
    }
  }

  // ---------- the answers ----------

  predicate LockedAgainst(a: Account, c: Client) {
    a.Present? && a.holder != NOBODY && a.holder != c
  }

  /** The rules: the answer to a request, from the account and the data of the file it names. `full`
      says that the store has as many files as it may. */
  predicate Fair(a: Account, data: string, maxSize: nat, full: bool, op: Op, r: Reply) {
    match op
    case Open(_, flags, c) =>
      if flags < 0 || flags > 3 then r == Fail(InvalidArguments)
      else if Asks(flags, O_CREATE) && a.Present? then r == Fail(FileAlreadyIn)
      else if !Asks(flags, O_CREATE) && a.Absent? then r == Fail(FileNotFound)
      else if LockedAgainst(a, c) then r == Fail(FileIsLocked)
      else if a.Present? && c in a.openers then r == Fail(FileAlreadyOpened)
      else r.Opened? && (r.evicted.Some? <==> a.Absent? && full)
    case Read(p, c) =>
      r == if a.Absent? then Fail(FileNotFound)
           else if LockedAgainst(a, c) then Fail(FileIsLocked)
           else if c !in a.openers then Fail(FileNotOpened)
           else Data(ResultFile(p, data, []))
    case Append(_, content, c, write) =>
      if content == "" then r == Fail(InvalidArguments)
      else if |content| >= maxSize then r == Fail(ExceededSize)
      else if a.Absent? then r == Fail(FileNotFound)
      else if |data| + |content| >= maxSize then r == Fail(ExceededSize)
      else if LockedAgainst(a, c) then r == Fail(FileIsLocked)
      else if write && a.writer != c then r == Fail(FileNoWrite)
      else if c !in a.openers then r == Fail(FileNotOpened)
      else r.Files?
    case Lock(_, c) =>
      r == if a.Absent? then Fail(FileNotFound)
           else if a.holder == NOBODY then Done
           else if a.holder == c || c in a.queue then Fail(FileAlreadyLocked)
           else Fail(FileIsLocked)
    case Unlock(_, c) =>
      r == if a.Absent? then Fail(FileNotFound)
           else if a.holder != c then Fail(FileIsLocked)
           else Unlocked(if a.queue == [] then None else Some(a.queue[0]))
    case Close(_, c) =>
      r == if a.Absent? then Fail(FileNotFound) else if c in a.openers then Done else Fail(FileNotOpened)
    case Remove(_, c) =>
      r == if a.Absent? then Fail(FileNotFound)
           else if a.holder == NOBODY then Fail(FileNotLocked)
           else if a.holder != c then Fail(FileIsLocked)
           else Removed(a.queue)
    case ReadN(_, _) => r.Files?
    case EvictClient(_) => r.Gained?
  }

  predicate DataAgrees(data: string, s: Store, p: Path) {
    p in s.tab ==> s.tab[p].data == data
  }

  lemma {:induction false} EffectIsFair(a: Account, maxSize: nat, full: bool, op: Op, e: Effect, p: Path, f: FileState)
    requires FileInv(f) && FileAgrees(a, f) && Delivers(op, p, e) && e.c != NOBODY
    ensures Fair(a, f.data, maxSize, full, op, Apply(e, p, f).1)
  {
  }

  lemma {:induction false} EnterIsFair(a: Account, data: string, s: Store, full: bool, op: Op, e: Effect, p: Path)
    requires Inv(s) && Agrees(a, s, p) && DataAgrees(data, s, p) && Delivers(op, p, e) && e.c != NOBODY
    ensures Fair(a, data, s.maxSize, full, op, Enter(s, p, e).1)
  {
    if p in s.tab {
      EnterFile(s, p, e);
      EffectIsFair(a, s.maxSize, full, op, e, p, s.tab[p]);
    }
  }

  lemma {:induction false} CreateIsFair(a: Account, data: string, s: Store, p: Path, flags: int, c: Client)
    requires Inv(s) && Agrees(a, s, p) && c != NOBODY && p !in s.tab && ValidFlags(flags) && HasCreate(flags)
    ensures Fair(a, data, s.maxSize, s.num == s.maxFiles, Op.Open(p, flags, c), ExecOpen(s, p, flags, c).1)
  {
    FlagBits(flags);
    if s.num == s.maxFiles {
      var (v, s1) := Pick(s, None).value;
      OpenNewAnswers(Drop(s1, v).0, p, c, HasLock(flags), Some(Drop(s1, v).1));
    } else {
      OpenNewAnswers(s, p, c, HasLock(flags), None);
    }
  }

  lemma {:induction false} OpenIsFair(a: Account, data: string, s: Store, p: Path, flags: int, c: Client)
    requires Inv(s) && Agrees(a, s, p) && c != NOBODY
    ensures Fair(a, data, s.maxSize, s.num == s.maxFiles, Op.Open(p, flags, c), ExecOpen(s, p, flags, c).1)
  {
    if ValidFlags(flags) {
      FlagBits(flags);
      if p !in s.tab && HasCreate(flags) { CreateIsFair(a, data, s, p, flags, c); }
      if p in s.tab && !HasCreate(flags) { EnterFile(s, p, OpenIt(c, HasLock(flags), true, None)); }
    }
  }

  lemma {:induction false} AppendIsFair(a: Account, data: string, s: Store, full: bool, op: Op)
    requires Inv(s) && op.Append? && Agrees(a, s, op.path) && DataAgrees(data, s, op.path) && op.c != NOBODY
    ensures Fair(a, data, s.maxSize, full, op, ExecAppend(s, op.path, op.content, op.c, op.write).1)
  {
    var (p, content) := (op.path, op.content);
    if content != "" && |content| < s.maxSize && p in s.tab && AppendCheck(s, s.tab[p], content, op.c, op.write).None? {
      AppendEvictsLeast(s, p, content, op.c, op.write);
    }
  }

  lemma {:induction false} ExecIsFair(a: Account, data: string, s: Store, op: Op)
    requires Inv(s) && Named(op)
    requires op.ReadN? || op.EvictClient? || (Agrees(a, s, op.path) && DataAgrees(data, s, op.path))
    ensures Fair(a, data, s.maxSize, s.num == s.maxFiles, op, Exec(s, op).1)
  {
    var full := s.num == s.maxFiles;
    match op
    case Open(p, flags, c) => OpenIsFair(a, data, s, p, flags, c);
    case Read(p, c) => EnterIsFair(a, data, s, full, op, ReadIt(c), p);
    case Append(_, _, _, _) => AppendIsFair(a, data, s, full, op);
    case Lock(p, c) => EnterIsFair(a, data, s, full, op, LockIt(c), p);
    case Unlock(p, c) => EnterIsFair(a, data, s, full, op, UnlockIt(c), p);
    case Close(p, c) => EnterIsFair(a, data, s, full, op, CloseIt(c), p);
    case Remove(_, _) =>
    case ReadN(_, _) =>
    case EvictClient(_) =>
  }

  function PathOf(op: Op): Path { if op.ReadN? || op.EvictClient? then "" else op.path }

  /** After every run, every request gets exactly the answer that the rules demand, from what earlier
      requests and answers say about the file: the data included, and which error when there are several. */
  lemma {:induction false} AnswersAreFair(maxSize: nat, maxFiles: nat, policy: Policy, ops: seq<Op>, op: Op)
    requires 0 < maxSize && 0 < maxFiles && AllNamed(ops) && Named(op)
    ensures var s := Empty(maxSize, maxFiles, policy); var t := Run(s, ops); var p := PathOf(op);
      Fair(AccountOf(s, ops, p), Written(s, ops, p), maxSize, |t.order| == maxFiles, op, Exec(t, op).1)
  {
    var s := Empty(maxSize, maxFiles, policy);
    var t := Run(s, ops);
    ReachableInv(maxSize, maxFiles, policy, ops);
    RunLimits(s, ops);
    AccountIsRight(maxSize, maxFiles, policy, ops, PathOf(op));
    DataIsWhatWasAppended(maxSize, maxFiles, policy, ops, PathOf(op));
    ExecIsFair(AccountOf(s, ops, PathOf(op)), Written(s, ops, PathOf(op)), t, op);
  }

  // ---------- what the answers hand out ----------

  lemma {:induction false} EvictedIs(s: Store, op: Op, rf: ResultFile)
    requires Inv(s) && Named(op) && rf in EvictedFiles(op, Exec(s, op).1)
    ensures rf.path in s.tab && rf == ResultFile(rf.path, s.tab[rf.path].data, s.tab[rf.path].waiters)
  {
    if op.Open? {
      OpenEvicts(s, op.path, op.flags, op.c, rf);
    } else {
      AppendSucceeds(s, op.path, op.content, op.c, op.write);
      AppendEvictsLeast(s, op.path, op.content, op.c, op.write);
      var vs := Candidates(s.order, op.path)[..Evictions(s, op.path, op.content)];
      ReverseIn(Results(s.tab, vs));
      ResultsIn(s.tab, vs, rf);
    }
  }

  lemma {:induction false} CopiesIn(tab: map<Path, FileState>, ps: seq<Path>, rf: ResultFile)
    requires (forall p :: p in ps ==> p in tab) && rf in Copies(tab, ps)
    ensures rf.path in ps && rf == ResultFile(rf.path, tab[rf.path].data, [])
  {
    if rf != ResultFile(ps[0], tab[ps[0]].data, []) { CopiesIn(tab, ps[1..], rf); }
  }

  lemma {:induction false} FirstReadableIn(tab: map<Path, FileState>, order: seq<Path>, count: int, c: Client, p: Path)
    requires p in FirstReadable(tab, order, count, c)
    ensures p in tab && !LockedByOther(tab[p], c)
  {
    var all := Filter(ReadableBy(tab, c), order);
    FilterIn(ReadableBy(tab, c), order);
    assert p in all;
  }

  lemma {:induction false} BulkReadIs(s: Store, n: int, c: Client, rf: ResultFile)
    requires Inv(s) && rf in ExecReadN(s, n, c).1.files
    ensures rf.path in s.tab && !LockedByOther(s.tab[rf.path], c)
    ensures rf == ResultFile(rf.path, s.tab[rf.path].data, [])
  {
    var count := if n <= 0 then |s.order| else n;
    ReadNReadsTheFirst(s, n, c);
    var ps := FirstReadable(s.tab, s.order, count, c);
    ReverseIn(Copies(s.tab, ps));
    CopiesIn(s.tab, ps, rf);
    FirstReadableIn(s.tab, s.order, count, c, rf.path);
  }

  /** After every run, an evicted file comes with everything ever appended to it and with the clients
      that wait for it in their order, and a file from a bulk read with everything ever appended to it. */
  lemma {:induction false} FilesAreWhole(maxSize: nat, maxFiles: nat, policy: Policy, ops: seq<Op>, op: Op,
      rf: ResultFile)
    requires 0 < maxSize && 0 < maxFiles && AllNamed(ops) && Named(op)
    requires var r := Exec(Run(Empty(maxSize, maxFiles, policy), ops), op).1;
      rf in EvictedFiles(op, r) || (op.ReadN? && r.Files? && rf in r.files)
    ensures var s := Empty(maxSize, maxFiles, policy); var a := AccountOf(s, ops, rf.path);
      && a.Present? && rf.data == Written(s, ops, rf.path)
      && (if op.ReadN? then rf.waiters == [] && !LockedAgainst(a, op.c) else rf.waiters == a.queue)
  {
    var s := Empty(maxSize, maxFiles, policy);
    var t := Run(s, ops);
    ReachableInv(maxSize, maxFiles, policy, ops);
    AccountIsRight(maxSize, maxFiles, policy, ops, rf.path);
    DataIsWhatWasAppended(maxSize, maxFiles, policy, ops, rf.path);
    if op.ReadN? { BulkReadIs(t, op.n, op.c, rf); } else { EvictedIs(t, op, rf); }
  }

  // ---------- what the rules come to ----------

  lemma {:induction false} OneMore(maxSize: nat, maxFiles: nat, policy: Policy, ops: seq<Op>, op: Op)
    requires 0 < maxSize && 0 < maxFiles && AllNamed(ops) && Named(op) && !op.ReadN? && !op.EvictClient?
    ensures var s := Empty(maxSize, maxFiles, policy); var t := Run(s, ops); var p := op.path;
      var a := AccountOf(s, ops, p); var (u, r) := Exec(t, op);
      && Agrees(a, t, p) && Agrees(Note(a, op, r, p), u, p)
      && Fair(a, Written(s, ops, p), maxSize, |t.order| == maxFiles, op, r)
  {
    AccountIsRight(maxSize, maxFiles, policy, ops, op.path);
    AnswersAreFair(maxSize, maxFiles, policy, ops, op);
    ReachableInv(maxSize, maxFiles, policy, ops);
    var s := Empty(maxSize, maxFiles, policy);
    NoteExec(AccountOf(s, ops, op.path), Run(s, ops), op, op.path);
  }

  /** A lock that is granted is taken, and it is granted exactly if nobody holds it; then every other
      client is refused. */
  lemma {:induction false} LockIsTaken(maxSize: nat, maxFiles: nat, policy: Policy, ops: seq<Op>, p: Path, c: Client)
    requires 0 < maxSize && 0 < maxFiles && AllNamed(ops) && c != NOBODY
    ensures var t := Run(Empty(maxSize, maxFiles, policy), ops);
      var (u, r) := Exec(t, Op.Lock(p, c));
      && (r == Done <==> p in t.tab && t.tab[p].lockedBy == NOBODY)
      && (r == Done ==> p in u.tab && u.tab[p].lockedBy == c && u.tab[p].waiters == [])
  {
    OneMore(maxSize, maxFiles, policy, ops, Op.Lock(p, c));
    ReachableInv(maxSize, maxFiles, policy, ops);
  }

  /** An unlock succeeds exactly for the holder; then the head of the queue holds the lock and has
      left the queue, or nobody waits and nobody holds it. */
  lemma {:induction false} UnlockHandsOver(maxSize: nat, maxFiles: nat, policy: Policy, ops: seq<Op>, p: Path,
      c: Client)
    requires 0 < maxSize && 0 < maxFiles && AllNamed(ops) && c != NOBODY
    ensures var t := Run(Empty(maxSize, maxFiles, policy), ops);
      var (u, r) := Exec(t, Op.Unlock(p, c));
      && (r.Unlocked? <==> p in t.tab && t.tab[p].lockedBy == c)
      && (r == Unlocked(None) ==>
        p in u.tab && u.tab[p].lockedBy == NOBODY && t.tab[p].waiters == u.tab[p].waiters == [])
      && (r.Unlocked? && r.next.Some? ==>
            p in u.tab && u.tab[p].lockedBy == r.next.value && [r.next.value] + u.tab[p].waiters == t.tab[p].waiters)
  {
    OneMore(maxSize, maxFiles, policy, ops, Op.Unlock(p, c));
  }

  /** After a successful open the client has opened the file, and holds its lock if it asked for it. */
  lemma {:induction false} OpenEvictsOther(s: Store, op: Op)
    requires Inv(s) && op.Open? && op.c != NOBODY && Exec(s, op).1.Opened?
    ensures !Mentioned(EvictedFiles(op, Exec(s, op).1), op.path)
  {
    var r := Exec(s, op).1;
    if r.evicted.Some? {
      OpenEvicts(s, op.path, op.flags, op.c, r.evicted.value);
      assert op.path !in s.tab;
    }
  }

  /** After a successful open the client has opened the file, and holds its lock if it asked for it. */
  lemma {:induction false} OpenedIsOpen(maxSize: nat, maxFiles: nat, policy: Policy, ops: seq<Op>, p: Path, flags: int,
      c: Client)
    requires 0 < maxSize && 0 < maxFiles && AllNamed(ops) && c != NOBODY
    ensures var t := Run(Empty(maxSize, maxFiles, policy), ops);
      var (u, r) := Exec(t, Op.Open(p, flags, c));
      r.Opened? ==> p in u.tab && c in u.tab[p].openers && (Asks(flags, O_LOCK) ==> u.tab[p].lockedBy == c)
  {
    var op := Op.Open(p, flags, c);
    var s := Empty(maxSize, maxFiles, policy);
    var t := Run(s, ops);
    OneMore(maxSize, maxFiles, policy, ops, op);
    ReachableInv(maxSize, maxFiles, policy, ops);
    if Exec(t, op).1.Opened? {
      OpenEvictsOther(t, op);
      NoteOpened(AccountOf(s, ops, p), op, Exec(t, op).1);
    }
  }

  lemma {:induction false} NoteOpened(a: Account, op: Op, r: Reply)
    requires op.Open? && r.Opened? && (a.Present? || Asks(op.flags, O_CREATE))
    ensures var b := NoteOwn(a, op, r);
      b.Present? && op.c in b.openers && (Asks(op.flags, O_LOCK) ==> b.holder == op.c)
  {
  }

  /** Only the holder of its lock can remove a file. */
  lemma {:induction false} OnlyHolderRemoves(maxSize: nat, maxFiles: nat, policy: Policy, ops: seq<Op>, p: Path,
      c: Client)
    requires 0 < maxSize && 0 < maxFiles && AllNamed(ops) && c != NOBODY
    ensures var t := Run(Empty(maxSize, maxFiles, policy), ops);
      var (u, r) := Exec(t, Op.Remove(p, c));
      && (r.Removed? <==> p in t.tab && t.tab[p].lockedBy == c)
      && (r.Removed? ==> p !in u.tab && r.orphans == t.tab[p].waiters)
      && (!r.Removed? ==> u == t)
  {
    OneMore(maxSize, maxFiles, policy, ops, Op.Remove(p, c));
  }
}
