/** The lock queues: what a lock protects, who gets it next, how long a client can wait, and what
    the departure of a client changes. */
module Locks {
  import opened StoreTypes
  import opened StoreSpec
  import opened StoreInvariant
  import opened Sequences

  // ---------- the departure of a client ----------

  /** g is f without any trace of c: the lock it held went to the first waiter, and nothing else moved. */
  ghost predicate Erased(c: Client, f: FileState, g: FileState) {
    && g.data == f.data
    && g.openers == Without(f.openers, [c])
    && c !in g.waiters && g.lockedBy != c && g.canWrite != c
    && (f.canWrite != c ==> g.canWrite == f.canWrite)
    && (f.lockedBy != c ==> g.lockedBy == f.lockedBy && g.waiters == Without(f.waiters, [c]))
    && (f.lockedBy == c && f.waiters == [] ==> g.lockedBy == NOBODY && g.waiters == [])
    && (f.lockedBy == c && f.waiters != [] ==> [g.lockedBy] + g.waiters == f.waiters)
  }

  lemma {:induction false} Remove1IsWithout(xs: seq<Client>, c: Client)
    requires NoDup(xs)
    ensures Remove1(xs, c) == Without(xs, [c])
  {
    if xs != [] {
      if xs[0] == c {
        FilterAll(NotIn([c]), xs[1..]);
      } else {
        Remove1IsWithout(xs[1..], c);
      }
    }
  }

  lemma {:induction false} DepartErases(c: Client, f: FileState)
    requires FileInv(f) && c != NOBODY
    ensures Erased(c, f, Depart(c, f).0)
  {
    Remove1IsWithout(f.openers, c);
    Remove1IsWithout(f.waiters, c);
    DepartKeepsFile(c, f);
    NoDupRemove1(f.openers, c);
    NoDupRemove1(f.waiters, c);
  }

  /** The clients that inherit a lock from c, in the order of the list of files. */
  function Heirs(tab: map<Path, FileState>, order: seq<Path>, c: Client): seq<Client>
    requires forall p :: p in order ==> p in tab
  {
    if order == [] then []
    else
      var f := tab[order[0]];
      (if f.lockedBy == c && f.waiters != [] then [f.waiters[0]] else []) + Heirs(tab, order[1..], c)
  }

  lemma {:induction false} DepartRestTab(tab: map<Path, FileState>, rest: seq<Path>, c: Client, acc: seq<Client>)
    requires NoDup(rest) && forall p :: p in rest ==> p in tab
    ensures forall p :: p in tab ==>
      DepartRest(tab, rest, c, acc).0[p] == if p in rest then Depart(c, tab[p]).0 else tab[p]
    decreases rest
  {
    if rest != [] {
      var (f, next) := Depart(c, tab[rest[0]]);
      DepartRestTab(tab[rest[0] := f], rest[1..], c, if next.Some? then [next.value] + acc else acc);
    }
  }

  lemma {:induction false} GainedCons(next: Option<Client>, hs: seq<Client>, acc: seq<Client>)
    ensures Reverse(hs) + (if next.Some? then [next.value] + acc else acc) ==
            Reverse((if next.Some? then [next.value] else []) + hs) + acc
  {
    if next.Some? {
      assert ([next.value] + hs)[1..] == hs;
    } else {
      assert [] + hs == hs;
    }
  }

  lemma {:induction false} DepartRestGained(tab: map<Path, FileState>, rest: seq<Path>, c: Client, acc: seq<Client>)
    requires NoDup(rest) && forall p :: p in rest ==> p in tab
    ensures DepartRest(tab, rest, c, acc).1 == Reverse(Heirs(tab, rest, c)) + acc
    decreases rest
  {
    if rest != [] {
      var (f, next) := Depart(c, tab[rest[0]]);
      var tab2 := tab[rest[0] := f];
      DepartRestGained(tab2, rest[1..], c, if next.Some? then [next.value] + acc else acc);
      HeirsFrame(tab, tab2, rest[1..], c);
      GainedCons(next, Heirs(tab, rest[1..], c), acc);
    }
  }

  lemma {:induction false} HeirsFrame(tab: map<Path, FileState>, tab2: map<Path, FileState>, order: seq<Path>,
      c: Client)
    requires forall p :: p in order ==> p in tab && p in tab2 && tab[p] == tab2[p]
    ensures Heirs(tab, order, c) == Heirs(tab2, order, c)
  {
    if order != [] { HeirsFrame(tab, tab2, order[1..], c); }
  }

  lemma {:induction false} EvictClientReply(s: Store, c: Client)
    requires Shape(s)
    ensures Exec(s, EvictClient(c)).1 == Gained(Reverse(Heirs(s.tab, s.order, c)))
  {
    DepartRestGained(s.tab, s.order, c, []);
    var hs := Reverse(Heirs(s.tab, s.order, c));
    assert hs + [] == hs;
  }

  lemma {:induction false} EvictClientFile(s: Store, c: Client, p: Path)
    requires Inv(s) && c != NOBODY && p in s.tab
    ensures p in Exec(s, EvictClient(c)).0.tab && Erased(c, s.tab[p], Exec(s, EvictClient(c)).0.tab[p])
  {
    DepartRestTab(s.tab, s.order, c, []);
    DepartErases(c, s.tab[p]);
  }

  /** Evicting a client erases it from every file, changes nothing else, and answers with exactly
      the clients that inherited one of its locks, once per lock. */
  lemma {:induction false} EvictClientErases(s: Store, c: Client)
    requires Inv(s) && c != NOBODY
    ensures var (t, r) := Exec(s, EvictClient(c));
      && t == s.(tab := t.tab) && t.tab.Keys == s.tab.Keys
      && (forall p :: p in s.tab ==> Erased(c, s.tab[p], t.tab[p]))
      && r == Gained(Reverse(Heirs(s.tab, s.order, c)))
  {
    EvictClientReply(s, c);
    forall p | p in s.tab ensures Erased(c, s.tab[p], Exec(s, EvictClient(c)).0.tab[p]) { EvictClientFile(s, c, p); }
  }

  // ---------- what one operation does to one file ----------

  /** The file at p after an operation that leaves it in the store. */
  lemma {:induction false} AppendLoopOthers(s: Store, p: Path, content: string, acc: seq<ResultFile>, q: Path)
    requires Shape(s) && p in s.tab && p in s.order
    requires q in s.tab && q in AppendLoop(s, p, content, acc).0.tab
    ensures p in AppendLoop(s, p, content, acc).0.tab
    ensures q != p ==> AppendLoop(s, p, content, acc).0.tab[q] == s.tab[q]
    ensures AppendLoop(s, p, content, acc).1.Files? ==>
      AppendLoop(s, p, content, acc).0.tab[p] == s.tab[p].(data := s.tab[p].data + content, canWrite := NOBODY)
    ensures AppendLoop(s, p, content, acc).1.Fail? ==> AppendLoop(s, p, content, acc).0.tab[p] == s.tab[p]
    ensures AppendLoop(s, p, content, acc).1.Fail? || AppendLoop(s, p, content, acc).1.Files?
    decreases |s.order|
  {
    if NeedsRoom(s, content) && Pick(s, Some(p)).Some? {
      var (v, s1) := Pick(s, Some(p)).value;
      var (s2, rf) := Drop(s1, v);
      if v == q { AppendLoopForgets(s2, p, content, [rf] + acc, q); }
      AppendLoopOthers(s2, p, content, [rf] + acc, q);
    }
  }

  lemma {:induction false} AppendLoopForgets(s: Store, p: Path, content: string, acc: seq<ResultFile>, q: Path)
    requires Shape(s) && p in s.tab && p in s.order && q !in s.tab
    ensures q !in AppendLoop(s, p, content, acc).0.tab
    decreases |s.order|
  {
    if NeedsRoom(s, content) && Pick(s, Some(p)).Some? {
      var (v, s1) := Pick(s, Some(p)).value;
      var (s2, rf) := Drop(s1, v);
      AppendLoopForgets(s2, p, content, [rf] + acc, q);
    }
  }

  /** The new state of a file that was there before and is there after: an effect, a departure,
      an append, or nothing. */
  function FileAfter(op: Op, reply: Reply, f: FileState): FileState {
    match op
    case Open(p, flags, c) =>
      if ValidFlags(flags) && !HasCreate(flags) then Apply(OpenIt(c, HasLock(flags), true, None), p, f).0 else f
    case Read(p, c) => Apply(ReadIt(c), p, f).0
    case Lock(p, c) => Apply(LockIt(c), p, f).0
    case Unlock(p, c) => Apply(UnlockIt(c), p, f).0
    case Close(p, c) => Apply(CloseIt(c), p, f).0
    case Append(_, content, _, _) => if reply.Files? then f.(data := f.data + content, canWrite := NOBODY) else f
    case EvictClient(c) => Depart(c, f).0
    case _ => f
  }

  predicate Concerns(op: Op, q: Path) {
    match op
    case ReadN(_, _) => false
    case EvictClient(_) => true
    case _ => op.path == q
  }

  ghost predicate OneFile(s: Store, op: Op, q: Path)
    requires Shape(s) && q in s.tab
  {
    q in Exec(s, op).0.tab ==>
      Exec(s, op).0.tab[q] == if Concerns(op, q) then FileAfter(op, Exec(s, op).1, s.tab[q]) else s.tab[q]
  }

  lemma {:induction false} OpenOneFile(s: Store, p: Path, flags: int, c: Client, q: Path)
    requires Inv(s) && q in s.tab
    ensures OneFile(s, Open(p, flags, c), q)
  {
  }

  lemma {:induction false} AppendOneFile(s: Store, p: Path, content: string, c: Client, write: bool, q: Path)
    requires Inv(s) && q in s.tab
    ensures OneFile(s, Append(p, content, c, write), q)
  {
    if |content| != 0 && |content| < s.maxSize && p in s.tab && AppendCheck(s, s.tab[p], content, c, write).None?
       && q in Exec(s, Append(p, content, c, write)).0.tab {
      AppendLoopOthers(s, p, content, [], q);
    }
  }

  lemma {:induction false} EnterOneFile(s: Store, p: Path, e: Effect, q: Path)
    requires Inv(s) && q in s.tab
    ensures Enter(s, p, e).0.tab == if p in s.tab then s.tab[p := Apply(e, p, s.tab[p]).0] else s.tab
  {
  }

  lemma {:induction false} ExecOneFile(s: Store, op: Op, q: Path)
    requires Inv(s) && Named(op)
    requires q in s.tab && q in Exec(s, op).0.tab
    ensures Exec(s, op).0.tab[q] == if Concerns(op, q) then FileAfter(op, Exec(s, op).1, s.tab[q]) else s.tab[q]
  {
    match op
    case Open(p, flags, c) => OpenOneFile(s, p, flags, c, q);
    case Append(p, content, c, write) => AppendOneFile(s, p, content, c, write, q);
    case Read(p, c) => EnterOneFile(s, p, ReadIt(c), q);
    case Lock(p, c) => EnterOneFile(s, p, LockIt(c), q);
    case Unlock(p, c) => EnterOneFile(s, p, UnlockIt(c), q);
    case Close(p, c) => EnterOneFile(s, p, CloseIt(c), q);
    case ReadN(_, _) =>
    case Remove(_, _) =>
    case EvictClient(c) => DepartRestTab(s.tab, s.order, c, []);
  }

  // ---------- what a lock protects ----------

  /** While another client holds the lock of a file, an operation of c changes neither its data
      nor its holder. */
  lemma {:induction false} LockProtectsFile(s: Store, op: Op, q: Path)
    requires Inv(s) && Named(op) && q in s.tab && LockedByOther(s.tab[q], op.c)
    requires q in Exec(s, op).0.tab
    ensures Exec(s, op).0.tab[q].data == s.tab[q].data && Exec(s, op).0.tab[q].lockedBy == s.tab[q].lockedBy
  {
    ExecOneFile(s, op, q);
    if Concerns(op, q) {
      if op.Append? { AppendAnswers(s, op.path, op.content, op.c, op.write); }
      ProtectedFile(op, Exec(s, op).1, s.tab[q]);
    }
  }

  /** And c can make it disappear only through the replacement algorithm. */
  lemma {:induction false} LockPreventsRemoval(s: Store, op: Op, q: Path)
    requires Inv(s) && Named(op) && q in s.tab && LockedByOther(s.tab[q], op.c)
    ensures q in Exec(s, op).0.tab || op.Open? || op.Append?
  {
    if op.EvictClient? { DepartRestTab(s.tab, s.order, op.c, []); }
  }

  /** And no read of c returns it. */
  lemma {:induction false} LockHidesFile(s: Store, p: Path, n: int, c: Client, q: Path)
    requires Inv(s) && q in s.tab && LockedByOther(s.tab[q], c)
    ensures var r := Exec(s, Read(p, c)).1; r.Data? ==> r.file.path != q
    ensures var r := Exec(s, ReadN(n, c)).1; r.Files? && forall rf :: rf in r.files ==> rf.path != q
  {
    NotRead(s.tab, s.order, ReadLimit(n, |s.order|), c, [], q);
  }

  lemma {:induction false} ProtectedFile(op: Op, reply: Reply, f: FileState)
    requires FileInv(f) && Named(op) && LockedByOther(f, op.c)
    requires op.Append? && reply.Files? ==> AppendAllowed(f, op.c)
    ensures FileAfter(op, reply, f).data == f.data && FileAfter(op, reply, f).lockedBy == f.lockedBy
  {
  }

  predicate AppendAllowed(f: FileState, c: Client) { !LockedByOther(f, c) }

  lemma {:induction false} AppendAnswers(s: Store, p: Path, content: string, c: Client, write: bool)
    requires Inv(s)
    ensures var r := Exec(s, Append(p, content, c, write)).1;
      && (r.Fail? || r.Files?)
      && (r.Files? ==> p in s.tab && AppendAllowed(s.tab[p], c))
  {
    if |content| != 0 && |content| < s.maxSize && p in s.tab && AppendCheck(s, s.tab[p], content, c, write).None? {
      AppendLoopAnswers(s, p, content, []);
    }
  }

  lemma {:induction false} AppendLoopAnswers(s: Store, p: Path, content: string, acc: seq<ResultFile>)
    requires Shape(s) && p in s.tab && p in s.order
    ensures AppendLoop(s, p, content, acc).1.Fail? || AppendLoop(s, p, content, acc).1.Files?
    decreases |s.order|
  {
    if NeedsRoom(s, content) && Pick(s, Some(p)).Some? {
      var (v, s1) := Pick(s, Some(p)).value;
      var (s2, rf) := Drop(s1, v);
      AppendLoopAnswers(s2, p, content, [rf] + acc);
    }
  }

  lemma {:induction false} NotRead(tab: map<Path, FileState>, rest: seq<Path>, counter: int, c: Client,
      acc: seq<ResultFile>, q: Path)
    requires q in tab && LockedByOther(tab[q], c)
    requires forall p :: p in rest ==> p in tab
    requires forall rf :: rf in acc ==> rf.path != q
    ensures forall rf :: rf in ReadRest(tab, rest, counter, c, acc) ==> rf.path != q
    decreases rest
  {
    if rest != [] && counter > 0 {
      var f := tab[rest[0]];
      if LockedByOther(f, c) {
        NotRead(tab, rest[1..], counter, c, acc, q);
      } else {
        NotRead(tab, rest[1..], counter - 1, c, [ResultFile(rest[0], f.data, [])] + acc, q);
      }
    }
  }

  // ---------- waiting for a lock ----------

  /** c waits for the lock in place k. */
  predicate WaitsAt(f: FileState, c: Client, k: nat) {
    k < |f.waiters| && f.waiters[k] == c
  }

  /** The lock changed hands. */
  predicate Handoff(f: FileState, g: FileState) {
    f.lockedBy != g.lockedBy
  }

  lemma {:induction false} Remove1Place(xs: seq<Client>, d: Client, k: nat) returns (j: nat)
    requires k < |xs| && xs[k] != d
    ensures j <= k && j < |Remove1(xs, d)| && Remove1(xs, d)[j] == xs[k]
  {
    if xs[0] == d {
      j := k - 1;
    } else if k == 0 {
      j := 0;
    } else {
      var i := Remove1Place(xs[1..], d, k - 1);
      j := i + 1;
    }
  }

  /** A handoff goes to the head of the queue, and otherwise no place in the queue grows. */
  lemma {:induction false} OneFileQueue(f: FileState, g: FileState, op: Op, reply: Reply, c: Client, k: nat)
      returns (j: nat)
    requires FileInv(f) && Named(op) && WaitsAt(f, c, k) && op != EvictClient(c)
    requires g == FileAfter(op, reply, f) || g == f
    ensures g.lockedBy != NOBODY
    ensures Handoff(f, g) ==> g.lockedBy == f.waiters[0]
    ensures (g.lockedBy == c && k == 0) || (WaitsAt(g, c, j) && j + (if Handoff(f, g) then 1 else 0) <= k)
  {
    j := k;
    if g != f {
      match op
      case Unlock(_, d) =>
        if f.lockedBy == d && k > 0 { j := k - 1; }
      case EvictClient(d) =>
        if f.lockedBy == d {
          if k > 0 { j := Remove1Place(f.waiters[1..], d, k - 1); }
        } else {
          j := Remove1Place(f.waiters, d, k);
        }
      case _ =>
    }
  }

  /** How often the lock of p changed hands during the operations. */
  ghost function Handoffs(s: Store, ops: seq<Op>, p: Path): nat
    requires Shape(s)
    decreases |ops|
  {
    if ops == [] then 0
    else
      var n := |ops| - 1;
      var (t, u) := (Run(s, ops[..n]), Run(s, ops));
      Handoffs(s, ops[..n], p) + if p in t.tab && p in u.tab && Handoff(t.tab[p], u.tab[p]) then 1 else 0
  }

  /** The file p is in the store all along. An operation never replaces a file by a new one of the
      same path, so it is the same file. */
  ghost predicate Stays(s: Store, ops: seq<Op>, p: Path)
    requires Shape(s)
  {
    forall i :: 0 <= i <= |ops| ==> p in Run(s, ops[..i]).tab
  }

  ghost predicate HeldDuring(s: Store, ops: seq<Op>, p: Path, c: Client)
    requires Shape(s)
  {
    exists i :: 0 <= i <= |ops| && p in Run(s, ops[..i]).tab && Run(s, ops[..i]).tab[p].lockedBy == c
  }

  /** c waits in p, in a place that together with n handoffs makes at most k. */
  ghost predicate Advanced(s: Store, p: Path, c: Client, n: nat, k: nat) {
    p in s.tab && exists j: nat :: WaitsAt(s.tab[p], c, j) && j + n <= k
  }

  lemma {:induction false} WaiterStep(s: Store, op: Op, p: Path, c: Client, n: nat, k: nat)
    requires Inv(s) && Named(op) && op != EvictClient(c)
    requires Advanced(s, p, c, n, k) && p in Exec(s, op).0.tab
    ensures var t := Exec(s, op).0;
      t.tab[p].lockedBy == c || Advanced(t, p, c, n + (if Handoff(s.tab[p], t.tab[p]) then 1 else 0), k)
  {
    var i: nat :| WaitsAt(s.tab[p], c, i) && i + n <= k;
    var t := Exec(s, op).0;
    ExecOneFile(s, op, p);
    var j := OneFileQueue(s.tab[p], t.tab[p], op, Exec(s, op).1, c, i);
  }

  lemma {:induction false} PrefixFacts(s: Store, ops: seq<Op>, p: Path, c: Client)
    requires Shape(s) && ops != []
    ensures Stays(s, ops, p) ==>
      Stays(s, ops[..|ops| - 1], p) && p in Run(s, ops).tab && p in Run(s, ops[..|ops| - 1]).tab
    ensures HeldDuring(s, ops[..|ops| - 1], p, c) ==> HeldDuring(s, ops, p, c)
    ensures p in Run(s, ops).tab && Run(s, ops).tab[p].lockedBy == c ==> HeldDuring(s, ops, p, c)
  {
    var n := |ops| - 1;
    var ops1 := ops[..n];
    assert ops[..n + 1] == ops;
    forall i | 0 <= i <= n ensures ops1[..i] == ops[..i] {}
    if HeldDuring(s, ops1, p, c) {
      var i :| 0 <= i <= n && p in Run(s, ops1[..i]).tab && Run(s, ops1[..i]).tab[p].lockedBy == c;
      assert ops1[..i] == ops[..i];
    }
    if Stays(s, ops, p) {
      forall i | 0 <= i <= n ensures p in Run(s, ops1[..i]).tab { assert ops1[..i] == ops[..i]; }
      assert p in Run(s, ops[..n]).tab;
    }
  }

  /** A client that waits in place k, stays connected and whose file stays, either has held the
      lock or waits in a place that every handoff brought forward. */
  lemma {:induction false} WaiterMovesUp(s: Store, ops: seq<Op>, p: Path, c: Client, k: nat)
    requires Inv(s) && AllNamed(ops) && Stays(s, ops, p) && EvictClient(c) !in ops
    requires p in s.tab && WaitsAt(s.tab[p], c, k)
    ensures HeldDuring(s, ops, p, c) || Advanced(Run(s, ops), p, c, Handoffs(s, ops, p), k)
    decreases |ops|
  {
    if ops != [] {
      var n := |ops| - 1;
      PrefixFacts(s, ops, p, c);
      WaiterMovesUp(s, ops[..n], p, c, k);
      RunKeepsInv(s, ops[..n]);
      if !HeldDuring(s, ops[..n], p, c) {
        assert ops[n] in ops;
        WaiterStep(Run(s, ops[..n]), ops[n], p, c, Handoffs(s, ops[..n], p), k);
      }
    }
  }

  /** So a client in place k has held the lock after k + 1 handoffs. */
  lemma {:induction false} WaiterIsServed(s: Store, ops: seq<Op>, p: Path, c: Client, k: nat)
    requires Inv(s) && AllNamed(ops) && Stays(s, ops, p) && EvictClient(c) !in ops
    requires p in s.tab && WaitsAt(s.tab[p], c, k)
    requires Handoffs(s, ops, p) >= k + 1
    ensures HeldDuring(s, ops, p, c)
  {
    WaiterMovesUp(s, ops, p, c, k);
  }

  /** An unlock by a client that does not hold the lock always reports that the file is locked,
      also when nobody holds it: the answer "not locked" is never given to a real client. */
  lemma {:induction false} UnlockNeverSaysNotLocked(s: Store, p: Path, c: Client)
    requires Inv(s) && c != NOBODY
    ensures var r := Exec(s, Unlock(p, c)).1;
      && r != Fail(FileNotLocked)
      && (r == Fail(FileIsLocked) <==> p in s.tab && s.tab[p].lockedBy != c)
  {
  }
}
