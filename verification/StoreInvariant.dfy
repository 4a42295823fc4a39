/** What holds of the store after every run: the list and the index agree, the counters are
    exact, the limits are kept, and every file's lock, queue and write permission are consistent. */
module StoreInvariant {
  import opened StoreTypes
  import opened StoreSpec
  import opened Sequences

  function Total(order: seq<Path>, tab: map<Path, FileState>): nat
    requires forall p :: p in order ==> p in tab
  {
    if order == [] then 0 else |tab[order[0]].data| + Total(order[1..], tab)
  }

  /** The lock queue has no duplicates, leaves out the holder, and is empty when nobody holds the
      lock; a write permission belongs to the holder of a still empty file nobody waits for. */
  ghost predicate FileInv(f: FileState) {
    && NoDup(f.waiters) && NoDup(f.openers)
    && NOBODY !in f.waiters && NOBODY !in f.openers
    && f.lockedBy !in f.waiters
    && (f.waiters != [] ==> f.lockedBy != NOBODY)
    && (f.canWrite != NOBODY ==> f.lockedBy == f.canWrite && f.data == "" && f.waiters == [])
  }

  ghost predicate Counted(s: Store) {
    && Shape(s)
    && (forall p :: p in s.tab ==> p in s.order)
    && s.num == |s.order| <= s.maxNum <= s.maxFiles
    && s.size == Total(s.order, s.tab) <= s.maxBytes
  }

  /** (One equation, so that the verifier does not take the predicate apart at every use.) */
  ghost predicate Inv(s: Store) {
    (&& Counted(s)
     && 0 < s.maxFiles
     && s.maxBytes < s.maxSize
     && forall p :: p in s.tab ==> FileInv(s.tab[p])) == true
  }

  predicate Named(op: Op) { op.c != NOBODY }

  predicate AllNamed(ops: seq<Op>) { forall op :: op in ops ==> Named(op) }

  // ---------- sums of sizes ----------

  lemma {:induction false} TotalFrame(order: seq<Path>, tab: map<Path, FileState>, tab2: map<Path, FileState>)
    requires forall p :: p in order ==> p in tab && p in tab2 && |tab[p].data| == |tab2[p].data|
    ensures Total(order, tab) == Total(order, tab2)
  {
    if order != [] { TotalFrame(order[1..], tab, tab2); }
  }

  lemma {:induction false} TotalRemove1(order: seq<Path>, tab: map<Path, FileState>, p: Path)
    requires forall q :: q in order ==> q in tab
    requires p in order
    ensures forall q :: q in Remove1(order, p) ==> q in tab
    ensures Total(order, tab) == |tab[p].data| + Total(Remove1(order, p), tab)
  {
    Remove1Sub(order, p);
    if order[0] != p {
      TotalRemove1(order[1..], tab, p);
      var rest := Remove1(order[1..], p);
      assert ([order[0]] + rest)[1..] == rest;
    }
  }

  lemma {:induction false} TotalUpdate(order: seq<Path>, tab: map<Path, FileState>, p: Path, f: FileState)
    requires NoDup(order) && p in order
    requires forall q :: q in order ==> q in tab
    ensures Total(order, tab[p := f]) == Total(order, tab) - |tab[p].data| + |f.data|
  {
    TotalRemove1(order, tab, p);
    TotalRemove1(order, tab[p := f], p);
    NoDupRemove1(order, p);
    TotalFrame(Remove1(order, p), tab, tab[p := f]);
  }

  lemma {:induction false} TotalTouch(s: Store, p: Path)
    requires Shape(s) && p in s.tab && p in s.order
    ensures Total(Touch(s, p).order, s.tab) == Total(s.order, s.tab)
    ensures |Touch(s, p).order| == |s.order|
  {
    TotalRemove1(s.order, s.tab, p);
    var rest := Remove1(s.order, p);
    assert ([p] + rest)[1..] == rest;
  }

  lemma {:induction false} TotalMoveAll(order: seq<Path>, tab: map<Path, FileState>, read: seq<ResultFile>)
    requires NoDup(order) && forall p :: p in order ==> p in tab
    requires forall rf :: rf in read ==> rf.path in order
    ensures forall p :: p in MoveAll(order, read) ==> p in tab
    ensures Total(MoveAll(order, read), tab) == Total(order, tab)
    decreases read
  {
    MoveAllShape(order, read);
    if read != [] {
      var p := read[0].path;
      NoDupRemove1(order, p);
      TotalRemove1(order, tab, p);
      assert MoveToFront(order, p)[1..] == Remove1(order, p);
      TotalMoveAll(MoveToFront(order, p), tab, read[1..]);
    }
  }

  /** Taking the victim off the list is a search-and-extract of its path. */
  lemma {:induction false} PickRemoves(s: Store, protect: Option<Path>)
    requires Shape(s) && Pick(s, protect).Some?
    ensures Pick(s, protect).value.1.order == Remove1(s.order, Pick(s, protect).value.0)
  {
    var n := |s.order|;
    var i := if protect == Some(s.order[n - 1]) then n - 2 else n - 1;
    NoDupTakeOut(s.order, i);
    assert s.order[n - 1..] == [s.order[n - 1]];
  }

  // ---------- one file ----------

  /** A one-file effect keeps the file consistent and never changes its data. An open that creates
      the file must be the one the permission was given to. */
  lemma {:induction false} ApplyKeepsFile(e: Effect, p: Path, f: FileState)
    requires FileInv(f) && e.c != NOBODY
    ensures FileInv(Apply(e, p, f).0)
    ensures Apply(e, p, f).0.data == f.data
  {
    match e
    case OpenIt(c, _, _, _) =>
      if c !in f.openers { NoDupCons(c, f.openers); }
    case ReadIt(_) =>
    case LockIt(c) =>
      if LockedByOther(f, c) && c !in f.waiters {
        NoDupSnoc(f.waiters, c);
      }
    case UnlockIt(c) =>
    case CloseIt(c) => NoDupRemove1(f.openers, c);
  }

  lemma {:induction false} NewFileKeeps(p: Path, c: Client, lock: bool, evicted: Option<ResultFile>)
    requires c != NOBODY
    ensures FileInv(Apply(OpenIt(c, lock, false, evicted), p, NewFile(if lock then c else NOBODY)).0)
  {
  }

  lemma {:induction false} DepartKeepsFile(c: Client, f: FileState)
    requires FileInv(f) && c != NOBODY
    ensures FileInv(Depart(c, f).0)
    ensures Depart(c, f).0.data == f.data
  {
    NoDupRemove1(f.openers, c);
    NoDupRemove1(f.waiters, c);
    if f.lockedBy == c && f.waiters != [] {
      NoDupRemove1(f.waiters[1..], c);
    }
  }

  // ---------- the steps of an operation ----------

  lemma {:induction false} DeliverKeeps(s: Store, p: Path, e: Effect)
    requires Inv(s) && p in s.tab && e.c != NOBODY
    ensures Inv(Deliver(s, p, e).0)
    ensures Deliver(s, p, e).0.order == s.order
  {
    ApplyKeepsFile(e, p, s.tab[p]);
    TotalFrame(s.order, s.tab, s.tab[p := Apply(e, p, s.tab[p]).0]);
  }

  lemma {:induction false} TouchKeeps(s: Store, p: Path)
    requires Inv(s) && p in s.tab
    ensures Inv(Touch(s, p))
  {
    TotalTouch(s, p);
  }

  /** Evicting keeps the store consistent, frees exactly the victim's bytes, and counts one run. */
  lemma {:induction false} EvictKeeps(s: Store, protect: Option<Path>)
    requires Inv(s) && Pick(s, protect).Some?
    ensures var (v, s1) := Pick(s, protect).value;
      && Inv(Drop(s1, v).0)
      && Drop(s1, v).0.size == s.size - |s.tab[v].data|
      && Drop(s1, v).0.tab == s.tab - {v}
      && v in s.tab
  {
    var (v, s1) := Pick(s, protect).value;
    PickRemoves(s, protect);
    TotalRemove1(s.order, s.tab, v);
    TotalFrame(s1.order, s.tab, s.tab - {v});
  }

  /** While the byte counter is exact, an eviction that protects a file can only fail when that
      file is alone, and then its content fits: so the loop never fails. */
  lemma {:induction false} PickSucceeds(s: Store, p: Path, content: string)
    requires Inv(s) && p in s.tab
    requires |s.tab[p].data| + |content| < s.maxSize
    requires NeedsRoom(s, content)
    ensures Pick(s, Some(p)).Some?
  {
    TotalRemove1(s.order, s.tab, p);
    assert |s.order| == 1 ==> Remove1(s.order, p) == [];
    assert |s.order| != 1;
  }

  lemma {:induction false} CommitKeeps(s: Store, p: Path, content: string)
    requires Inv(s) && p in s.tab && !NeedsRoom(s, content) && content != ""
    ensures Inv(AppendCommit(s, p, content))
  {
    var f := s.tab[p];
    var g := f.(data := f.data + content, canWrite := NOBODY);
    TotalUpdate(s.order, s.tab, p, g);
    var s1 := s.(tab := s.tab[p := g], size := s.size + |content|, maxBytes := Max(s.size + |content|, s.maxBytes));
    assert Inv(s1);
    TouchKeeps(s1, p);
  }

  lemma {:induction false} AppendLoopKeeps(s: Store, p: Path, content: string, acc: seq<ResultFile>)
    requires Inv(s) && p in s.tab && content != ""
    requires |s.tab[p].data| + |content| < s.maxSize
    ensures Inv(AppendLoop(s, p, content, acc).0)
    ensures AppendLoop(s, p, content, acc).1.Files?
    decreases |s.order|
  {
    if NeedsRoom(s, content) {
      PickSucceeds(s, p, content);
      EvictKeeps(s, Some(p));
      var (v, s1) := Pick(s, Some(p)).value;
      var (s2, rf) := Drop(s1, v);
      AppendLoopKeeps(s2, p, content, [rf] + acc);
    } else {
      CommitKeeps(s, p, content);
    }
  }

  lemma {:induction false} CreateKeeps(s: Store, p: Path)
    requires Inv(s) && p !in s.tab && s.num < s.maxFiles
    ensures Inv(Create(s, p, NOBODY))
  {
    var r := Create(s, p, NOBODY);
    assert r.order[1..] == s.order;
    TotalFrame(s.order, s.tab, r.tab);
  }

  lemma {:induction false} OpenNewTab(s: Store, q: Path, d: Client, lock: bool, evicted: Option<ResultFile>)
    requires Shape(s) && q !in s.tab
    ensures var w := if lock then d else NOBODY;
      OpenNew(s, q, d, lock, evicted).0.tab == s.tab[q := FileState("", w, w, [], [d])]
  {
    assert [d] + [] == [d];
  }

  lemma {:induction false} OpenNewKeeps(s: Store, p: Path, c: Client, lock: bool, evicted: Option<ResultFile>)
    requires Inv(s) && p !in s.tab && s.num < s.maxFiles && c != NOBODY
    ensures Inv(OpenNew(s, p, c, lock, evicted).0)
  {
    var w := if lock then c else NOBODY;
    CreateKeeps(s, p);
    var s1 := Create(s, p, NOBODY);
    NewFileKeeps(p, c, lock, evicted);
    var r := OpenNew(s, p, c, lock, evicted).0;
    assert r.order == s1.order;
    TotalFrame(s1.order, s1.tab, r.tab);
  }

  lemma {:induction false} ReadNKeeps(s: Store, n: int, c: Client)
    requires Inv(s)
    ensures Inv(ExecReadN(s, n, c).0)
  {
    var read := ReadRest(s.tab, s.order, ReadLimit(n, |s.order|), c, []);
    ReadRestPaths(s.tab, s.order, ReadLimit(n, |s.order|), c, []);
    MoveAllShape(s.order, read);
    TotalMoveAll(s.order, s.tab, read);
  }

  lemma {:induction false} RemoveKeeps(s: Store, p: Path, c: Client)
    requires Inv(s)
    ensures Inv(ExecRemove(s, p, c).0)
  {
    if p in s.tab {
      NoDupRemove1(s.order, p);
      TotalRemove1(s.order, s.tab, p);
      TotalFrame(Remove1(s.order, p), s.tab, s.tab - {p});
    }
  }

  lemma {:induction false} DepartRestKeeps(tab: map<Path, FileState>, rest: seq<Path>, c: Client, acc: seq<Client>)
    requires forall p :: p in rest ==> p in tab
    requires c != NOBODY && forall p :: p in tab ==> FileInv(tab[p])
    ensures var t := DepartRest(tab, rest, c, acc).0;
      forall p :: p in tab ==> FileInv(t[p]) && t[p].data == tab[p].data
    decreases rest
  {
    if rest != [] {
      var (f, next) := Depart(c, tab[rest[0]]);
      DepartKeepsFile(c, tab[rest[0]]);
      DepartRestKeeps(tab[rest[0] := f], rest[1..], c, if next.Some? then [next.value] + acc else acc);
    }
  }

  lemma {:induction false} EvictClientKeeps(s: Store, c: Client)
    requires Inv(s) && c != NOBODY
    ensures Inv(ExecEvictClient(s, c).0)
  {
    DepartRestKeeps(s.tab, s.order, c, []);
    TotalFrame(s.order, s.tab, DepartRest(s.tab, s.order, c, []).0);
  }

  lemma {:induction false} OpenKeeps(s: Store, p: Path, flags: int, c: Client)
    requires Inv(s) && c != NOBODY
    ensures Inv(ExecOpen(s, p, flags, c).0)
  {
    if !ValidFlags(flags) || (p in s.tab && HasCreate(flags)) || (p !in s.tab && !HasCreate(flags)) {
    } else if p in s.tab {
      TouchKeeps(s, p);
      DeliverKeeps(Touch(s, p), p, OpenIt(c, HasLock(flags), true, None));
    } else if s.num == s.maxFiles {
      if Pick(s, None).Some? {
        EvictKeeps(s, None);
        var (v, s1) := Pick(s, None).value;
        OpenNewKeeps(Drop(s1, v).0, p, c, HasLock(flags), Some(Drop(s1, v).1));
      }
    } else {
      OpenNewKeeps(s, p, c, HasLock(flags), None);
    }
  }

  lemma {:induction false} EnterKeeps(s: Store, p: Path, e: Effect)
    requires Inv(s) && e.c != NOBODY
    ensures Inv(Enter(s, p, e).0)
  {
    if p in s.tab {
      TouchKeeps(s, p);
      DeliverKeeps(Touch(s, p), p, e);
    }
  }

  lemma {:induction false} AppendKeeps(s: Store, p: Path, content: string, c: Client, write: bool)
    requires Inv(s)
    ensures Inv(ExecAppend(s, p, content, c, write).0)
  {
    if |content| != 0 && p in s.tab && AppendCheck(s, s.tab[p], content, c, write).None? {
      AppendLoopKeeps(s, p, content, []);
    }
  }

  /** Every operation of a real client keeps the store consistent. */
  lemma {:induction false} ExecKeepsInv(s: Store, op: Op)
    requires Inv(s) && Named(op)
    ensures Inv(Exec(s, op).0)
  {
    match op
    case Open(p, flags, c) => OpenKeeps(s, p, flags, c);
    case Read(p, c) => EnterKeeps(s, p, ReadIt(c));
    case ReadN(n, c) => ReadNKeeps(s, n, c);
    case Append(p, content, c, write) => AppendKeeps(s, p, content, c, write);
    case Lock(p, c) => EnterKeeps(s, p, LockIt(c));
    case Unlock(p, c) => EnterKeeps(s, p, UnlockIt(c));
    case Close(p, c) => EnterKeeps(s, p, CloseIt(c));
    case Remove(p, c) => RemoveKeeps(s, p, c);
    case EvictClient(c) => EvictClientKeeps(s, c);
  }

  /** In every reachable state the store is consistent. */
  lemma {:induction false} RunKeepsInv(s: Store, ops: seq<Op>)
    requires Inv(s) && AllNamed(ops)
    ensures Inv(Run(s, ops))
    decreases |ops|
  {
    if ops != [] {
      var n := |ops| - 1;
      assert forall op :: op in ops[..n] ==> op in ops;
      RunKeepsInv(s, ops[..n]);
      ExecKeepsInv(Run(s, ops[..n]), ops[n]);
    }
  }

  lemma {:induction false} ReachableInv(maxSize: nat, maxFiles: nat, policy: Policy, ops: seq<Op>)
    requires 0 < maxSize && 0 < maxFiles && AllNamed(ops)
    ensures Inv(Run(Empty(maxSize, maxFiles, policy), ops))
  {
    RunKeepsInv(Empty(maxSize, maxFiles, policy), ops);
  }

  // ---------- the limits stay ----------

  predicate SameLimits(s: Store, t: Store) { t.maxSize == s.maxSize && t.maxFiles == s.maxFiles
      && t.policy == s.policy }

  lemma {:induction false} RunLimits(s: Store, ops: seq<Op>)
    requires Shape(s)
    ensures SameLimits(s, Run(s, ops))
    decreases |ops|
  {
    if ops != [] {
      RunLimits(s, ops[..|ops| - 1]);
      ExecLimits(Run(s, ops[..|ops| - 1]), ops[|ops| - 1]);
    }
  }

  lemma {:induction false} ExecLimits(s: Store, op: Op)
    requires Shape(s)
    ensures SameLimits(s, Exec(s, op).0)
  {
    if op.Append? { AppendLimits(s, op.path, op.content, op.c, op.write); }
  }

  lemma {:induction false} AppendLimits(s: Store, p: Path, content: string, c: Client, write: bool)
    requires Shape(s)
    ensures SameLimits(s, ExecAppend(s, p, content, c, write).0)
  {
    if p in s.tab && p in s.order { LoopLimits(s, p, content, []); }
  }

  lemma {:induction false} LoopLimits(s: Store, p: Path, content: string, acc: seq<ResultFile>)
    requires Shape(s) && p in s.tab && p in s.order
    ensures SameLimits(s, AppendLoop(s, p, content, acc).0)
    decreases |s.order|
  {
    if NeedsRoom(s, content) && Pick(s, Some(p)).Some? {
      var (v, s1) := Pick(s, Some(p)).value;
      LoopLimits(Drop(s1, v).0, p, content, [Drop(s1, v).1] + acc);
    }
  }
}
