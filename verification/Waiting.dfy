/** Counting the clients that wait for locks: an operation moves clients between the queues of the
    files and its answer, and loses or invents none. */
module Waiting {
  import opened StoreTypes
  import opened StoreSpec
  import opened StoreInvariant
  import opened Sequences
  import opened Locks

  function Is(c: Client): Client -> bool { x => x == c }

  function Anyone(): Client -> bool { x => true }

  function Count(k: Client -> bool, xs: seq<Client>): nat {
    if xs == [] then 0 else (if k(xs[0]) then 1 else 0) + Count(k, xs[1..])
  }

  /** How many waiting places of the listed files are taken by clients of kind k. */
  function WaitingIn(k: Client -> bool, order: seq<Path>, tab: map<Path, FileState>): nat
    requires forall p :: p in order ==> p in tab
  {
    if order == [] then 0 else Count(k, tab[order[0]].waiters) + WaitingIn(k, order[1..], tab)
  }

  function WaitingAt(k: Client -> bool, s: Store): nat
    requires Shape(s)
  {
    WaitingIn(k, s.order, s.tab)
  }

  function AllWaiters(files: seq<ResultFile>): seq<Client> {
    if files == [] then [] else files[0].waiters + AllWaiters(files[1..])
  }

  /** The clients that an answer hands over: they stopped waiting, with or without the lock. */
  function Woken(r: Reply): seq<Client> {
    match r
    case Opened(Some(rf)) => rf.waiters
    case Files(files) => AllWaiters(files)
    case Unlocked(Some(c)) => [c]
    case Removed(orphans) => orphans
    case Gained(clients) => clients
    case _ => []
  }

  /** The client that began to wait. */
  function Joined(op: Op, r: Reply): seq<Client> {
    if op.Lock? && r == Fail(FileIsLocked) then [op.c] else []
  }

  // ---------- counting ----------

  lemma {:induction false} CountConcat(k: Client -> bool, xs: seq<Client>, ys: seq<Client>)
    ensures Count(k, xs + ys) == Count(k, xs) + Count(k, ys)
  {
    if xs == [] {
      assert xs + ys == ys;
    } else {
      assert (xs + ys)[1..] == xs[1..] + ys;
      CountConcat(k, xs[1..], ys);
    }
  }

  lemma {:induction false} CountReverse(k: Client -> bool, xs: seq<Client>)
    ensures Count(k, Reverse(xs)) == Count(k, xs)
  {
    if xs != [] {
      CountReverse(k, xs[1..]);
      CountConcat(k, Reverse(xs[1..]), [xs[0]]);
    }
  }

  lemma {:induction false} CountRemove1(k: Client -> bool, xs: seq<Client>, x: Client)
    ensures Count(k, xs) == Count(k, Remove1(xs, x)) + if x in xs && k(x) then 1 else 0
  {
    if xs != [] && xs[0] != x {
      CountRemove1(k, xs[1..], x);
      assert ([xs[0]] + Remove1(xs[1..], x))[1..] == Remove1(xs[1..], x);
    }
  }

  lemma {:induction false} CountIs(xs: seq<Client>, c: Client)
    ensures Count(Is(c), xs) > 0 <==> c in xs
  {
    if xs != [] { CountIs(xs[1..], c); }
  }

  lemma {:induction false} CountAnyone(xs: seq<Client>)
    ensures Count(Anyone(), xs) == |xs|
  {
    if xs != [] { CountAnyone(xs[1..]); }
  }

  lemma {:induction false} WaitingFrame(k: Client -> bool, order: seq<Path>, tab: map<Path, FileState>,
      tab2: map<Path, FileState>)
    requires forall p :: p in order ==> p in tab && p in tab2 && tab[p].waiters == tab2[p].waiters
    ensures WaitingIn(k, order, tab) == WaitingIn(k, order, tab2)
  {
    if order != [] { WaitingFrame(k, order[1..], tab, tab2); }
  }

  lemma {:induction false} WaitingRemove1(k: Client -> bool, order: seq<Path>, tab: map<Path, FileState>, p: Path)
    requires p in order && forall q :: q in order ==> q in tab
    ensures forall q :: q in Remove1(order, p) ==> q in tab
    ensures WaitingIn(k, order, tab) == Count(k, tab[p].waiters) + WaitingIn(k, Remove1(order, p), tab)
  {
    Remove1Sub(order, p);
    if order[0] != p {
      WaitingRemove1(k, order[1..], tab, p);
      var rest := Remove1(order[1..], p);
      assert ([order[0]] + rest)[1..] == rest;
    }
  }

  lemma {:induction false} WaitingUpdate(k: Client -> bool, order: seq<Path>, tab: map<Path, FileState>, p: Path,
      f: FileState)
    requires NoDup(order) && p in order && forall q :: q in order ==> q in tab
    ensures WaitingIn(k, order, tab[p := f]) == WaitingIn(k, order, tab) - Count(k, tab[p].waiters) +
      Count(k, f.waiters)
  {
    WaitingRemove1(k, order, tab, p);
    WaitingRemove1(k, order, tab[p := f], p);
    NoDupRemove1(order, p);
    WaitingFrame(k, Remove1(order, p), tab, tab[p := f]);
  }

  lemma {:induction false} WaitingFront(k: Client -> bool, order: seq<Path>, tab: map<Path, FileState>, p: Path)
    requires p in order && forall q :: q in order ==> q in tab
    ensures forall q :: q in MoveToFront(order, p) ==> q in tab
    ensures WaitingIn(k, MoveToFront(order, p), tab) == WaitingIn(k, order, tab)
  {
    WaitingRemove1(k, order, tab, p);
    assert MoveToFront(order, p)[1..] == Remove1(order, p);
  }

  lemma {:induction false} WaitingMoveAll(k: Client -> bool, order: seq<Path>, tab: map<Path, FileState>,
      read: seq<ResultFile>)
    requires NoDup(order) && forall p :: p in order ==> p in tab
    requires forall rf :: rf in read ==> rf.path in order
    ensures forall p :: p in MoveAll(order, read) ==> p in tab
    ensures WaitingIn(k, MoveAll(order, read), tab) == WaitingIn(k, order, tab)
    decreases read
  {
    MoveAllShape(order, read);
    if read != [] {
      var p := read[0].path;
      NoDupRemove1(order, p);
      WaitingFront(k, order, tab, p);
      WaitingMoveAll(k, MoveToFront(order, p), tab, read[1..]);
    }
  }

  /** A client that is counted once among the waiting ones waits for exactly one file. */
  lemma {:induction false} WaitsForOneFile(order: seq<Path>, tab: map<Path, FileState>, c: Client) returns (p: Path)
    requires NoDup(order) && forall q :: q in order ==> q in tab
    requires WaitingIn(Is(c), order, tab) == 1
    ensures p in order && c in tab[p].waiters
    ensures forall q :: q in order && c in tab[q].waiters ==> q == p
    decreases order
  {
    InTail(order);
    CountIs(tab[order[0]].waiters, c);
    if c in tab[order[0]].waiters {
      p := order[0];
      WaitsNowhere(order[1..], tab, c);
    } else {
      p := WaitsForOneFile(order[1..], tab, c);
    }
  }

  lemma {:induction false} WaitsNowhere(order: seq<Path>, tab: map<Path, FileState>, c: Client)
    requires forall q :: q in order ==> q in tab
    ensures WaitingIn(Is(c), order, tab) == 0 <==> forall q :: q in order ==> c !in tab[q].waiters
  {
    if order != [] {
      InTail(order);
      CountIs(tab[order[0]].waiters, c);
      WaitsNowhere(order[1..], tab, c);
    }
  }

  // ---------- the steps of an operation ----------

  lemma {:induction false} ApplyWaiters(k: Client -> bool, e: Effect, p: Path, f: FileState)
    ensures var (g, r) := Apply(e, p, f);
      Count(k, f.waiters) + (if e.LockIt? && r == Fail(FileIsLocked) then Count(k, [e.c]) else 0) ==
      Count(k, g.waiters) + (if e.OpenIt? then 0 else Count(k, Woken(r)))
  {
    match e
    case OpenIt(_, _, _, _) =>
    case ReadIt(_) =>
    case LockIt(c) => CountConcat(k, f.waiters, [c]);
    case UnlockIt(_) =>
    case CloseIt(_) =>
  }

  lemma {:induction false} DeliverWaiters(k: Client -> bool, s: Store, p: Path, e: Effect)
    requires Inv(s) && p in s.tab
    ensures var (t, r) := Deliver(s, p, e);
      WaitingAt(k, s) + (if e.LockIt? && r == Fail(FileIsLocked) then Count(k, [e.c]) else 0) ==
      WaitingAt(k, t) + (if e.OpenIt? then 0 else Count(k, Woken(r)))
  {
    ApplyWaiters(k, e, p, s.tab[p]);
    WaitingUpdate(k, s.order, s.tab, p, Apply(e, p, s.tab[p]).0);
  }

  lemma {:induction false} EnterWaiters(k: Client -> bool, s: Store, p: Path, e: Effect)
    requires Inv(s)
    ensures var (t, r) := Enter(s, p, e);
      WaitingAt(k, s) + (if e.LockIt? && r == Fail(FileIsLocked) then Count(k, [e.c]) else 0) ==
      WaitingAt(k, t) + (if e.OpenIt? then 0 else Count(k, Woken(r)))
  {
    if p in s.tab {
      WaitingFront(k, s.order, s.tab, p);
      TouchKeeps(s, p);
      DeliverWaiters(k, Touch(s, p), p, e);
    }
  }

  /** The waiters of a victim go into the answer. */
  lemma {:induction false} EvictWaiters(k: Client -> bool, s: Store, protect: Option<Path>)
    requires Inv(s) && Pick(s, protect).Some?
    ensures var (v, s1) := Pick(s, protect).value;
      WaitingAt(k, s) == WaitingAt(k, Drop(s1, v).0) + Count(k, Drop(s1, v).1.waiters)
  {
    var (v, s1) := Pick(s, protect).value;
    PickRemoves(s, protect);
    WaitingRemove1(k, s.order, s.tab, v);
    WaitingFrame(k, s1.order, s.tab, s.tab - {v});
  }

  lemma {:induction false} AppendLoopWaiters(k: Client -> bool, s: Store, p: Path, content: string,
      acc: seq<ResultFile>)
    requires Inv(s) && p in s.tab && content != ""
    requires |s.tab[p].data| + |content| < s.maxSize
    ensures var (t, r) := AppendLoop(s, p, content, acc);
      r.Files? && WaitingAt(k, s) + Count(k, AllWaiters(acc)) == WaitingAt(k, t) + Count(k, Woken(r))
    decreases |s.order|
  {
    if NeedsRoom(s, content) {
      PickSucceeds(s, p, content);
      EvictKeeps(s, Some(p));
      EvictWaiters(k, s, Some(p));
      var (v, s1) := Pick(s, Some(p)).value;
      var (s2, rf) := Drop(s1, v);
      CountConcat(k, rf.waiters, AllWaiters(acc));
      assert ([rf] + acc)[1..] == acc;
      AppendLoopWaiters(k, s2, p, content, [rf] + acc);
    } else {
      var f := s.tab[p];
      var g := f.(data := f.data + content, canWrite := NOBODY);
      WaitingUpdate(k, s.order, s.tab, p, g);
      WaitingFront(k, s.order, s.tab[p := g], p);
    }
  }

  lemma {:induction false} AppendWaiters(k: Client -> bool, s: Store, p: Path, content: string, c: Client, write: bool)
    requires Inv(s)
    ensures var (t, r) := ExecAppend(s, p, content, c, write);
      WaitingAt(k, s) == WaitingAt(k, t) + Count(k, Woken(r))
  {
    if |content| != 0 && p in s.tab && AppendCheck(s, s.tab[p], content, c, write).None? {
      AppendLoopWaiters(k, s, p, content, []);
    }
  }

  lemma {:induction false} OpenNewWaiters(k: Client -> bool, s: Store, p: Path, c: Client, lock: bool,
      evicted: Option<ResultFile>)
    requires Inv(s) && p !in s.tab && c != NOBODY
    ensures WaitingAt(k, OpenNew(s, p, c, lock, evicted).0) == WaitingAt(k, s)
    ensures OpenNew(s, p, c, lock, evicted).1 == Opened(evicted)
  {
    var r := OpenNew(s, p, c, lock, evicted).0;
    assert r.order[1..] == s.order && r.tab[p].waiters == [];
    WaitingFrame(k, s.order, s.tab, r.tab);
  }

  lemma {:induction false} OpenWaiters(k: Client -> bool, s: Store, p: Path, flags: int, c: Client)
    requires Inv(s) && c != NOBODY
    ensures var (t, r) := ExecOpen(s, p, flags, c);
      WaitingAt(k, s) == WaitingAt(k, t) + Count(k, Woken(r))
  {
    if !ValidFlags(flags) || (p in s.tab && HasCreate(flags)) || (p !in s.tab && !HasCreate(flags)) {
    } else if p in s.tab {
      EnterWaiters(k, s, p, OpenIt(c, HasLock(flags), true, None));
    } else if s.num == s.maxFiles {
      if Pick(s, None).Some? {
        EvictKeeps(s, None);
        EvictWaiters(k, s, None);
        var (v, s1) := Pick(s, None).value;
        var (s2, rf) := Drop(s1, v);
        OpenNewWaiters(k, s2, p, c, HasLock(flags), Some(rf));
      }
    } else {
      OpenNewWaiters(k, s, p, c, HasLock(flags), None);
    }
  }

  lemma {:induction false} ReadHasNoWaiters(tab: map<Path, FileState>, rest: seq<Path>, counter: int, c: Client,
      acc: seq<ResultFile>)
    requires forall p :: p in rest ==> p in tab
    ensures AllWaiters(ReadRest(tab, rest, counter, c, acc)) == AllWaiters(acc)
    decreases rest
  {
    if rest != [] && counter > 0 {
      var f := tab[rest[0]];
      if LockedByOther(f, c) {
        ReadHasNoWaiters(tab, rest[1..], counter, c, acc);
      } else {
        var rf := ResultFile(rest[0], f.data, []);
        assert ([rf] + acc)[1..] == acc && [] + AllWaiters(acc) == AllWaiters(acc);
        ReadHasNoWaiters(tab, rest[1..], counter - 1, c, [rf] + acc);
      }
    }
  }

  lemma {:induction false} ReadNWaiters(k: Client -> bool, s: Store, n: int, c: Client)
    requires Inv(s)
    ensures var (t, r) := ExecReadN(s, n, c);
      WaitingAt(k, s) == WaitingAt(k, t) && Woken(r) == []
  {
    var read := ReadRest(s.tab, s.order, ReadLimit(n, |s.order|), c, []);
    ReadRestPaths(s.tab, s.order, ReadLimit(n, |s.order|), c, []);
    ReadHasNoWaiters(s.tab, s.order, ReadLimit(n, |s.order|), c, []);
    MoveAllShape(s.order, read);
    WaitingMoveAll(k, s.order, s.tab, read);
  }

  lemma {:induction false} WaitingWithout(k: Client -> bool, s: Store, p: Path)
    requires Shape(s) && p in s.order
    ensures forall q :: q in Remove1(s.order, p) ==> q in s.tab - {p}
    ensures WaitingAt(k, s) == Count(k, s.tab[p].waiters) + WaitingIn(k, Remove1(s.order, p), s.tab - {p})
  {
    NoDupRemove1(s.order, p);
    WaitingRemove1(k, s.order, s.tab, p);
    WaitingFrame(k, Remove1(s.order, p), s.tab, s.tab - {p});
  }

  lemma {:induction false} RemoveWaiters(k: Client -> bool, s: Store, p: Path, c: Client)
    requires Inv(s)
    ensures var (t, r) := ExecRemove(s, p, c);
      WaitingAt(k, s) == WaitingAt(k, t) + Count(k, Woken(r))
  {
    if p in s.tab { WaitingWithout(k, s, p); }
  }

  /** Conservation: whoever waited before, or began to wait, waits afterwards or is in the answer. */
  lemma {:induction false} WaitersConserved(k: Client -> bool, s: Store, op: Op)
    requires Inv(s) && Named(op) && !op.EvictClient?
    ensures var (t, r) := Exec(s, op);
      WaitingAt(k, s) + Count(k, Joined(op, r)) == WaitingAt(k, t) + Count(k, Woken(r))
  {
    match op
    case Open(p, flags, c) => OpenWaiters(k, s, p, flags, c);
    case Read(p, c) => EnterWaiters(k, s, p, ReadIt(c));
    case ReadN(n, c) => ReadNWaiters(k, s, n, c);
    case Append(p, content, c, write) => AppendWaiters(k, s, p, content, c, write);
    case Lock(p, c) => EnterWaiters(k, s, p, LockIt(c));
    case Unlock(p, c) => EnterWaiters(k, s, p, UnlockIt(c));
    case Close(p, c) => EnterWaiters(k, s, p, CloseIt(c));
    case Remove(p, c) => RemoveWaiters(k, s, p, c);
  }

  // ---------- the departure of a client ----------

  lemma {:induction false} DepartOne(k: Client -> bool, c: Client, f: FileState)
    requires FileInv(f)
    ensures var (g, next) := Depart(c, f);
      var woken := if next.Some? then [next.value] else [];
      && Count(k, g.waiters) + Count(k, woken) <= Count(k, f.waiters)
      && (Count(Is(c), f.waiters) == 0 ==> Count(k, g.waiters) + Count(k, woken) == Count(k, f.waiters))
  {
    CountIs(f.waiters, c);
    CountRemove1(k, if f.lockedBy == c && f.waiters != [] then f.waiters[1..] else f.waiters, c);
  }

  lemma {:induction false} DepartWaiters(k: Client -> bool, order: seq<Path>, tab: map<Path, FileState>,
      tab2: map<Path, FileState>, c: Client)
    requires forall p :: p in order ==> p in tab && p in tab2 && FileInv(tab[p]) && tab2[p] == Depart(c, tab[p]).0
    ensures WaitingIn(k, order, tab2) + Count(k, Heirs(tab, order, c)) <= WaitingIn(k, order, tab)
    ensures WaitingIn(Is(c), order, tab) == 0 ==>
      WaitingIn(k, order, tab2) + Count(k, Heirs(tab, order, c)) == WaitingIn(k, order, tab)
  {
    if order != [] {
      DepartWaiters(k, order[1..], tab, tab2, c);
      DepartOne(k, c, tab[order[0]]);
      var next := Depart(c, tab[order[0]]).1;
      CountConcat(k, if next.Some? then [next.value] else [], Heirs(tab, order[1..], c));
    }
  }

  lemma {:induction false} DepartedFiles(s: Store, c: Client, p: Path)
    requires Inv(s) && p in s.order
    ensures var t := Exec(s, EvictClient(c)).0;
      p in t.tab && t.order == s.order && FileInv(s.tab[p]) && t.tab[p] == Depart(c, s.tab[p]).0
  {
    DepartRestTab(s.tab, s.order, c, []);
  }

  lemma {:induction false} DepartureConserves(k: Client -> bool, s: Store, t: Store, c: Client, r: Reply)
    requires Shape(s) && Shape(t) && t.order == s.order && r == Gained(Reverse(Heirs(s.tab, s.order, c)))
    requires forall p :: p in s.order ==> FileInv(s.tab[p]) && t.tab[p] == Depart(c, s.tab[p]).0
    ensures WaitingAt(k, t) + Count(k, Woken(r)) <= WaitingAt(k, s)
    ensures WaitingAt(Is(c), s) == 0 ==> WaitingAt(k, t) + Count(k, Woken(r)) == WaitingAt(k, s)
  {
    DepartWaiters(k, s.order, s.tab, t.tab, c);
    CountReverse(k, Heirs(s.tab, s.order, c));
  }

  /** When a client departs, the clients in the answer are taken from the queues; nobody else
      stops waiting, except the departing client itself. */
  lemma {:induction false} EvictClientConserves(k: Client -> bool, s: Store, c: Client)
    requires Inv(s) && c != NOBODY
    ensures var (t, r) := Exec(s, EvictClient(c));
      && WaitingAt(k, t) + Count(k, Woken(r)) <= WaitingAt(k, s)
      && (WaitingAt(Is(c), s) == 0 ==> WaitingAt(k, t) + Count(k, Woken(r)) == WaitingAt(k, s))
  {
    var (t, r) := Exec(s, EvictClient(c));
    forall p | p in s.order ensures FileInv(s.tab[p]) && t.tab[p] == Depart(c, s.tab[p]).0 { DepartedFiles(s, c, p); }
    EvictClientReply(s, c);
    DepartureConserves(k, s, t, c, r);
  }
}
