/** No deadlock and no livelock: while an operation is under way some thread can make a step, and
    every step uses up a bounded amount of work, although only single threads are signalled, a client
    eviction leaves a file without a signal, and an append evicts files while it is inside another. */
module Progress {
  import opened StoreTypes
  import opened StoreSpec
  import opened Protocol
  import opened ProtocolSafety
  import opened Linearizability
  import StoreInvariant

  // ---------- some thread can go on ----------

  ghost predicate SomeReady(st: State) {
    exists t: Tid :: Ready(st, t)
  }

  lemma {:induction false} ReadyIsEnabled(st: State, t: Tid)
    requires Inv(st) && Ready(st, t)
    ensures Enabled(st, t)
  {
    ThreadOk(st, t);
  }

  lemma {:induction false} RoleAt(st: State, t: Tid, p: Path)
    requires Inv(st) && p in st.sync
    ensures RoleOk(st.sync[p], At(st.threads, t, p), t)
  {
    assert FilesOk(st);
    assert FileOk(st.sync[p], st.threads, p);
  }

  /** Who has a file's mutex waits for nothing. */
  lemma {:induction false} MutexOwnerGoes(st: State, p: Path)
    requires Inv(st) && p in st.sync && st.sync[p].mutex.Some?
    ensures SomeReady(st)
  {
    var m := st.sync[p].mutex.value;
    RoleAt(st, m, p);
    ThreadOk(st, m);
    assert Ready(st, m);
  }

  /** A visitor that waits for neither `ordering` nor a signal. */
  lemma {:induction false} AwakeGoes(st: State, t: Tid)
    requires Inv(st) && t < |st.threads| && st.threads[t].Visit? && st.threads[t].ph != WantOrd
      && st.threads[t].ph != Asleep
    ensures SomeReady(st)
  {
    VisitedExists(st, t);
    if st.sync[st.threads[t].p].mutex.Some? {
      MutexOwnerGoes(st, st.threads[t].p);
    } else {
      assert Ready(st, t);
    }
  }

  /** Everybody who is inside of p is visiting p. */
  ghost predicate NobodyAway(st: State, p: Path) {
    forall t: Tid :: t < |st.threads| && (At(st.threads, t, p).asWriter || At(st.threads, t, p).asReader) ==>
      st.threads[t].Visit? && st.threads[t].p == p
  }

  lemma {:induction false} InsiderGoes(st: State, t: Tid, p: Path)
    requires Inv(st) && NobodyAway(st, p) && (At(st.threads, t, p).asWriter || At(st.threads, t, p).asReader)
    ensures SomeReady(st)
  {
    AwakeGoes(st, t);
  }

  lemma {:induction false} SleeperGoes(st: State, t: Tid)
    requires Inv(st) && t < |st.threads| && st.threads[t].Visit? && st.threads[t].ph == Asleep
    requires NobodyAway(st, st.threads[t].p)
    ensures SomeReady(st)
  {
    var p := st.threads[t].p;
    VisitedExists(st, t);
    var y := st.sync[p];
    assert FilesOk(st);
    assert FileOk(y, st.threads, p);
    assert Signalled(y, st.threads, p, t);
    if t !in y.waitset {
      assert Ready(st, t);
    } else if y.writer.Some? {
      RoleAt(st, y.writer.value, p);
      InsiderGoes(st, y.writer.value, p);
    } else if y.readers != {} {
      var r :| r in y.readers;
      RoleAt(st, r, p);
      InsiderGoes(st, r, p);
    } else {
      MutexOwnerGoes(st, p);
    }
  }

  /** A visitor of a file whose insiders all visit it. */
  lemma {:induction false} VisitorGoes(st: State, t: Tid)
    requires Inv(st) && t < |st.threads| && st.threads[t].Visit? && NobodyAway(st, st.threads[t].p)
    ensures SomeReady(st)
  {
    var p := st.threads[t].p;
    VisitedExists(st, t);
    if st.threads[t].ph == Asleep {
      SleeperGoes(st, t);
    } else if st.threads[t].ph == WantOrd && st.sync[p].ord.Some? {
      var o := st.sync[p].ord.value;
      RoleAt(st, o, p);
      if st.threads[o].ph == Asleep { SleeperGoes(st, o); } else { AwakeGoes(st, o); }
    } else if st.threads[t].ph == WantOrd {
      assert Ready(st, t);
    } else {
      AwakeGoes(st, t);
    }
  }

  /** An append that is inside of one file while it evicts another one is the only thread of its
      kind, and the file it evicts is not the one it is inside of. */
  lemma {:induction false} EvictorGoes(st: State, w: Tid, p: Path)
    requires Inv(st) && w < |st.threads| && At(st.threads, w, p).asWriter
    requires !(st.threads[w].Visit? && st.threads[w].p == p)
    ensures SomeReady(st)
  {
    if st.threads[w].Holding? {
      assert Ready(st, w);
    } else {
      var v := st.threads[w].p;
      ThreadOk(st, w);
      forall t: Tid | t < |st.threads| && (At(st.threads, t, v).asWriter || At(st.threads, t, v).asReader)
        ensures st.threads[t].Visit? && st.threads[t].p == v {
        OwnerIs(st, t);
        OwnerIs(st, w);
        ThreadOk(st, t);
      }
      VisitorGoes(st, w);
    }
  }

  lemma {:induction false} SomebodyAway(st: State, p: Path) returns (w: Tid)
    requires !NobodyAway(st, p)
    ensures w < |st.threads| && (At(st.threads, w, p).asWriter || At(st.threads, w, p).asReader)
    ensures !(st.threads[w].Visit? && st.threads[w].p == p)
  {
    w :| w < |st.threads| && (At(st.threads, w, p).asWriter || At(st.threads, w, p).asReader)
      && !(st.threads[w].Visit? && st.threads[w].p == p);
  }

  lemma {:induction false} AwayAsWriter(pc: PC, p: Path)
    requires RoleOf(pc, p).asWriter || RoleOf(pc, p).asReader
    requires !(pc.Visit? && pc.p == p)
    ensures RoleOf(pc, p).asWriter
  {
  }

  lemma {:induction false} AnyVisitorGoes(st: State, t: Tid)
    requires Inv(st) && t < |st.threads| && st.threads[t].Visit?
    ensures SomeReady(st)
  {
    var p := st.threads[t].p;
    if NobodyAway(st, p) {
      VisitorGoes(st, t);
    } else {
      var w := SomebodyAway(st, p);
      AwayAsWriter(st.threads[w], p);
      EvictorGoes(st, w, p);
    }
  }

  lemma {:induction false} SomebodyGoes(st: State, t: Tid)
    requires Inv(st) && t < |st.threads| && !st.threads[t].Idle?
    ensures SomeReady(st)
  {
    match st.threads[t]
    case WantOverall(_) =>
      if st.overall.None? {
        assert Ready(st, t);
      } else {
        var o := st.overall.value;
        OwnerIs(st, o);
        if st.threads[o].Holding? { assert Ready(st, o); } else { AnyVisitorGoes(st, o); }
      }
    case Holding(_, _) => assert Ready(st, t);
    case Visit(_, _, _, _, _, _) => AnyVisitorGoes(st, t);
  }

  /** No deadlock: while an operation is under way, some thread can make a step; no wake-up without
      a signal is needed for that. */
  lemma {:induction false} NoDeadlock(sts: seq<State>, maxSize: nat, maxFiles: nat, policy: Policy, i: nat, t: Tid)
    requires Behaviour(sts, maxSize, maxFiles, policy) && i < |sts|
    requires t < |sts[i].threads| && !sts[i].threads[t].Idle?
    ensures exists u: Tid :: Enabled(sts[i], u)
  {
    BehaviourKeeps(sts, maxSize, maxFiles, policy, i);
    SomebodyGoes(sts[i], t);
    var u: Tid :| Ready(sts[i], u);
    ReadyIsEnabled(sts[i], u);
  }

  // ---------- the work that is left ----------

  /** Steps left in the visit: a thread that was signalled does not go to sleep again. */
  function PhaseWork(ph: Phase): nat {
    match ph
    case WantOrd => 20
    case WantMutex => 19
    case LeaveEarly => 18
    case Check(woken) => if woken then 14 else 17
    case Asleep => 16
    case Reacquire(woken) => if woken then 15 else 18
    case RelOrd => 13
    case RelMutex => 12
    case Body => 11
    case LeaveLate => 10
    case ExitLock => 9
    case ExitDec => 8
    case ExitSignal => 7
    case ExitUnlock => 6
  }

  /** Steps left after the visit; an append may still evict each of the n listed files. */
  function ContWork(k: Cont, n: nat): nat {
    match k
    case Start(_) => 20 * n + 40
    case Deliverable(_) => 0
    case OpenVictim(_, _, _) => 20
    case OpenCreate(_, _, _, _) => 20
    case AppendEnter(_, _, _) => 20 * n + 20
    case AppendEvict(_, _, _) => 20 * n + 20
    case AppendVictim(_, _, _) => 20 * n + 20
    case ReadNext(rest, _, _, _) => 20 * |rest| + 10
    case ReadAt(rest, _, _, _) => 20 * |rest| + 10
    case DepartNext(rest, _, _) => 20 * |rest| + 10
    case DepartAt(rest, _, _) => 20 * |rest| + 10
    case RemoveAt(_) => 5
    case RemoveNow(_, _) => 5
    case Answer(_) => 0
  }

  function ThreadWork(pc: PC, n: nat, maxFiles: nat): nat {
    match pc
    case Idle => 0
    case WantOverall(_) => 20 * maxFiles + 60
    case Holding(_, k) => 5 + ContWork(k, n)
    case Visit(_, _, _, _, k, ph) => PhaseWork(ph) + ContWork(k, n)
  }

  function TotalWork(threads: seq<PC>, n: nat, maxFiles: nat): nat {
    if threads == [] then 0 else ThreadWork(threads[0], n, maxFiles) + TotalWork(threads[1..], n, maxFiles)
  }

  function Work(st: State): nat { TotalWork(st.threads, |st.s.order|, st.s.maxFiles) }

  lemma {:induction false} TotalWorkLess(a: seq<PC>, b: seq<PC>, n: nat, m: nat, maxFiles: nat, t: Tid)
    requires t < |a| == |b|
    requires ThreadWork(b[t], m, maxFiles) < ThreadWork(a[t], n, maxFiles)
    requires forall u: Tid :: u < |a| && u != t ==> ThreadWork(b[u], m, maxFiles) == ThreadWork(a[u], n, maxFiles)
    ensures TotalWork(b, m, maxFiles) < TotalWork(a, n, maxFiles)
  {
    if t == 0 {
      TotalWorkSame(a[1..], b[1..], n, m, maxFiles);
    } else {
      TotalWorkLess(a[1..], b[1..], n, m, maxFiles, t - 1);
    }
  }

  lemma {:induction false} TotalWorkSame(a: seq<PC>, b: seq<PC>, n: nat, m: nat, maxFiles: nat)
    requires |a| == |b|
    requires forall u: Tid :: u < |a| ==> ThreadWork(b[u], m, maxFiles) == ThreadWork(a[u], n, maxFiles)
    ensures TotalWork(b, m, maxFiles) == TotalWork(a, n, maxFiles)
  {
    if a != [] { TotalWorkSame(a[1..], b[1..], n, m, maxFiles); }
  }

  /** Only the owner of the overall mutex has work that depends on the list. */
  lemma {:induction false} WaiterWork(st: State, u: Tid, n: nat, m: nat, maxFiles: nat)
    requires Inv(st) && u < |st.threads| && !Owns(st.threads[u])
    ensures ThreadWork(st.threads[u], m, maxFiles) == ThreadWork(st.threads[u], n, maxFiles)
  {
    ThreadOk(st, u);
  }

  lemma {:induction false} OthersWork(st: State, st2: State, t: Tid)
    requires Inv(st) && OnlyThread(st, st2, t) && (Owns(st.threads[t]) || |st2.s.order| == |st.s.order|)
    requires ThreadWork(st2.threads[t], |st2.s.order|, st.s.maxFiles) < ThreadWork(st.threads[t], |st.s.order|,
      st.s.maxFiles)
    requires st2.s.maxFiles == st.s.maxFiles
    ensures Work(st2) < Work(st)
  {
    forall u: Tid | u < |st.threads| && u != t
      ensures ThreadWork(st2.threads[u], |st2.s.order|, st.s.maxFiles) ==
        ThreadWork(st.threads[u], |st.s.order|, st.s.maxFiles) {
      if Owns(st.threads[t]) {
        OwnerIs(st, t);
        OwnerIs(st, u);
        WaiterWork(st, u, |st.s.order|, |st2.s.order|, st.s.maxFiles);
      }
    }
    TotalWorkLess(st.threads, st2.threads, |st.s.order|, |st2.s.order|, st.s.maxFiles, t);
  }

  /** A step of thread t leaves it less to do. */
  ghost predicate WorksOff(st: State, st2: State, t: Tid) {
    && OnlyThread(st, st2, t) && st2.s.maxFiles == st.s.maxFiles
    && (Owns(st.threads[t]) || |st2.s.order| == |st.s.order|)
    && ThreadWork(st2.threads[t], |st2.s.order|, st.s.maxFiles) < ThreadWork(st.threads[t], |st.s.order|, st.s.maxFiles)
  }

  lemma {:induction false} TouchLength(s: Store, p: Path)
    requires Shape(s) && p in s.tab && p in s.order
    ensures |Touch(s, p).order| == |s.order| && Touch(s, p).maxFiles == s.maxFiles
  {
  }

  lemma {:induction false} TouchWork(st: State, t: Tid, i: nat, op: Op, p: Path, mode: Mode, e: Effect)
    requires t < |st.threads| && st.threads[t] == Holding(i, Start(op)) && Shape(st.s) && AllListed(st.s)
    ensures WorksOff(st, TouchAndVisit(st, t, i, p, mode, e), t)
  {
    if p in st.s.tab { TouchLength(st.s, p); }
  }

  lemma {:induction false} OpenTouches(st: State, t: Tid, i: nat, p: Path, flags: int, c: Client)
    requires t < |st.threads| && Shape(st.s) && AllListed(st.s) && p in st.s.tab && !HasCreate(flags)
    ensures StartStep(st, t, i, Op.Open(p, flags, c)) ==
      TouchAndVisit(st, t, i, p, Writer, OpenIt(c, HasLock(flags), true, None))
  {
  }

  lemma {:induction false} OpenNewWork(st: State, t: Tid, i: nat, p: Path, flags: int, c: Client)
    requires t < |st.threads| && st.threads[t] == Holding(i, Start(Op.Open(p, flags, c)))
    requires Shape(st.s) && AllListed(st.s) && !(p in st.s.tab && !HasCreate(flags))
    ensures WorksOff(st, StartStep(st, t, i, Op.Open(p, flags, c)), t)
  {
  }

  lemma {:induction false} OpenWork(st: State, t: Tid, i: nat, p: Path, flags: int, c: Client)
    requires t < |st.threads| && st.threads[t] == Holding(i, Start(Op.Open(p, flags, c)))
    requires Shape(st.s) && AllListed(st.s)
    ensures WorksOff(st, StartStep(st, t, i, Op.Open(p, flags, c)), t)
  {
    if p in st.s.tab && !HasCreate(flags) {
      OpenTouches(st, t, i, p, flags, c);
      TouchWork(st, t, i, Op.Open(p, flags, c), p, Writer, OpenIt(c, HasLock(flags), true, None));
    } else {
      OpenNewWork(st, t, i, p, flags, c);
    }
  }

  lemma {:induction false} TouchingWork(st: State, t: Tid, i: nat, op: Op)
    requires t < |st.threads| && st.threads[t] == Holding(i, Start(op)) && Shape(st.s) && AllListed(st.s)
    requires op.Read? || op.Lock? || op.Unlock? || op.Close?
    ensures WorksOff(st, StartStep(st, t, i, op), t)
  {
    match op
    case Read(p, c) => TouchWork(st, t, i, op, p, Reader, ReadIt(c));
    case Lock(p, c) => TouchWork(st, t, i, op, p, Writer, LockIt(c));
    case Unlock(p, c) => TouchWork(st, t, i, op, p, Writer, UnlockIt(c));
    case Close(p, c) => TouchWork(st, t, i, op, p, Writer, CloseIt(c));
  }

  lemma {:induction false} OtherWork(st: State, t: Tid, i: nat, op: Op)
    requires t < |st.threads| && st.threads[t] == Holding(i, Start(op)) && Shape(st.s) && AllListed(st.s)
    requires op.ReadN? || op.Append? || op.Remove? || op.EvictClient?
    ensures WorksOff(st, StartStep(st, t, i, op), t)
  {
  }

  lemma {:induction false} StartWork(st: State, t: Tid, i: nat, op: Op)
    requires t < |st.threads| && st.threads[t] == Holding(i, Start(op)) && Shape(st.s) && AllListed(st.s)
    ensures WorksOff(st, StartStep(st, t, i, op), t)
  {
    match op
    case Open(p, flags, c) => OpenWork(st, t, i, p, flags, c);
    case Read(_, _) => TouchingWork(st, t, i, op);
    case Lock(_, _) => TouchingWork(st, t, i, op);
    case Unlock(_, _) => TouchingWork(st, t, i, op);
    case Close(_, _) => TouchingWork(st, t, i, op);
    case _ => OtherWork(st, t, i, op);
  }

  lemma {:induction false} MoveReadLength(s: Store, read: seq<ResultFile>)
    requires Shape(s) && forall q :: q in PathsOf(read) ==> q in s.order
    ensures |MoveRead(s, read).order| == |s.order| && MoveRead(s, read).maxFiles == s.maxFiles
  {
    forall rf | rf in read ensures rf.path in s.order { assert rf.path in PathsOf(read); }
    MoveAllShape(s.order, read);
  }

  lemma {:induction false} ReadNextWork(st: State, t: Tid, i: nat, k: Cont)
    requires t < |st.threads| && st.threads[t] == Holding(i, k) && CanHold(st.s, k) && k.ReadNext?
    ensures WorksOff(st, HoldStep(st, t, i, k), t)
  {
    MoveReadLength(st.s, k.read);
  }

  lemma {:induction false} AppendEvictWork(st: State, t: Tid, i: nat, k: Cont)
    requires t < |st.threads| && st.threads[t] == Holding(i, k) && CanHold(st.s, k) && k.AppendEvict?
    ensures WorksOff(st, HoldStep(st, t, i, k), t)
  {
    if !NeedsRoom(st.s, k.content) { TouchLength(st.s, k.q); }
  }

  lemma {:induction false} OtherHoldWork(st: State, t: Tid, i: nat, k: Cont)
    requires t < |st.threads| && st.threads[t] == Holding(i, k) && CanHold(st.s, k)
    requires k.OpenCreate? || k.DepartNext? || k.RemoveNow? || k.Answer?
    ensures WorksOff(st, HoldStep(st, t, i, k), t)
  {
  }

  lemma {:induction false} StartHoldWork(st: State, t: Tid, i: nat, op: Op)
    requires t < |st.threads| && st.threads[t] == Holding(i, Start(op)) && CanHold(st.s, Start(op))
    ensures WorksOff(st, HoldStep(st, t, i, Start(op)), t)
  {
    StartWork(st, t, i, op);
  }

  lemma {:induction false} HoldWork(st: State, t: Tid, i: nat, k: Cont)
    requires t < |st.threads| && st.threads[t] == Holding(i, k) && CanHold(st.s, k)
    ensures WorksOff(st, HoldStep(st, t, i, k), t)
  {
    match k
    case Start(op) => StartHoldWork(st, t, i, op);
    case ReadNext(_, _, _, _) => ReadNextWork(st, t, i, k);
    case AppendEvict(_, _, _) => AppendEvictWork(st, t, i, k);
    case _ => OtherHoldWork(st, t, i, k);
  }

  lemma {:induction false} CheckWork(st: State, t: Tid, pc: PC)
    requires VisitsNow(st, t, pc) && pc.ph.Check? && (pc.ph.woken ==> !Blocked(pc.mode, st.sync[pc.p]))
    ensures WorksOff(st, CheckStep(st, t, pc), t)
  {
    if !Blocked(pc.mode, st.sync[pc.p]) && pc.mode == Victim {
      assert pc.k.OpenVictim? || pc.k.AppendVictim?;
    }
  }

  lemma {:induction false} ListBodyWork(st: State, t: Tid, pc: PC)
    requires VisitsNow(st, t, pc) && pc.ph == Body && (pc.k.ReadAt? || pc.k.DepartAt?)
    ensures WorksOff(st, BodyStep(st, t, pc), t)
  {
  }

  lemma {:induction false} FileBodyWork(st: State, t: Tid, pc: PC)
    requires VisitsNow(st, t, pc) && pc.ph == Body && !pc.k.ReadAt? && !pc.k.DepartAt?
    ensures WorksOff(st, BodyStep(st, t, pc), t)
  {
  }

  lemma {:induction false} BodyWork(st: State, t: Tid, pc: PC)
    requires VisitsNow(st, t, pc) && pc.ph == Body
    ensures WorksOff(st, BodyStep(st, t, pc), t)
  {
    if pc.k.ReadAt? || pc.k.DepartAt? { ListBodyWork(st, t, pc); } else { FileBodyWork(st, t, pc); }
  }

  lemma {:induction false} PlainPhaseWork(st: State, t: Tid, pc: PC, n: nat, maxFiles: nat)
    requires VisitsNow(st, t, pc) && !pc.ph.Check? && pc.ph != Body && pc.ph != RelMutex && pc.ph != ExitUnlock
    ensures ThreadWork(VisitStep(st, t, pc).threads[t], n, maxFiles) < ThreadWork(pc, n, maxFiles)
  {
  }

  lemma {:induction false} LastPhaseWork(st: State, t: Tid, pc: PC, n: nat, maxFiles: nat)
    requires VisitsNow(st, t, pc) && (pc.ph == RelMutex || pc.ph == ExitUnlock)
    ensures ThreadWork(VisitStep(st, t, pc).threads[t], n, maxFiles) < ThreadWork(pc, n, maxFiles)
  {
  }

  lemma {:induction false} PlainWork(st: State, t: Tid, pc: PC)
    requires VisitsNow(st, t, pc) && !pc.ph.Check? && pc.ph != Body
    ensures WorksOff(st, VisitStep(st, t, pc), t)
  {
    PlainOrder(st, t, pc);
    if pc.ph == RelMutex || pc.ph == ExitUnlock {
      LastPhaseWork(st, t, pc, |st.s.order|, st.s.maxFiles);
    } else {
      PlainPhaseWork(st, t, pc, |st.s.order|, st.s.maxFiles);
    }
  }

  lemma {:induction false} PlainOrder(st: State, t: Tid, pc: PC)
    requires VisitsNow(st, t, pc) && !pc.ph.Check? && pc.ph != Body
    ensures VisitStep(st, t, pc).s == st.s && OnlyThread(st, VisitStep(st, t, pc), t)
  {
  }

  /** A thread that was signalled goes on, so every phase of a visit is passed at most once. */
  lemma {:induction false} VisitWork(st: State, t: Tid, pc: PC)
    requires VisitsNow(st, t, pc) && (pc.ph == Check(true) ==> !Blocked(pc.mode, st.sync[pc.p]))
    ensures WorksOff(st, VisitStep(st, t, pc), t)
  {
    if pc.ph.Check? { CheckWork(st, t, pc); }
    else if pc.ph == Body { BodyWork(st, t, pc); }
    else { PlainWork(st, t, pc); }
  }

  // ---------- the operations are those of clients, so the store keeps its limits ----------

  /** No operation comes from nobody. */
  ghost predicate AllFromClients(st: State) {
    StoreInvariant.AllNamed(st.hist) && forall pc :: pc in st.threads && pc.WantOverall? ==> StoreInvariant.Named(pc.op)
  }

  lemma {:induction false} HoldNames(st: State, t: Tid, i: nat, k: Cont)
    requires t < |st.threads| && CanHold(st.s, k) && st.threads[t].Holding?
    ensures var st2 := HoldStep(st, t, i, k); st2.hist == st.hist && !st2.threads[t].WantOverall?
  {
    if k.Start? { StartNames(st, t, i, k.op); }
  }

  lemma {:induction false} StartNames(st: State, t: Tid, i: nat, op: Op)
    requires t < |st.threads| && Shape(st.s) && AllListed(st.s)
    ensures StartStep(st, t, i, op).hist == st.hist && !StartStep(st, t, i, op).threads[t].WantOverall?
  {
  }

  lemma {:induction false} BodyNames(st: State, t: Tid, pc: PC)
    requires VisitsNow(st, t, pc)
    ensures BodyStep(st, t, pc).hist == st.hist && !BodyStep(st, t, pc).threads[t].WantOverall?
  {
  }

  lemma {:induction false} CheckNames(st: State, t: Tid, pc: PC)
    requires VisitsNow(st, t, pc)
    ensures CheckStep(st, t, pc).hist == st.hist && !CheckStep(st, t, pc).threads[t].WantOverall?
  {
  }

  lemma {:induction false} VisitNames(st: State, t: Tid, pc: PC)
    requires VisitsNow(st, t, pc)
    ensures VisitStep(st, t, pc).hist == st.hist && !VisitStep(st, t, pc).threads[t].WantOverall?
  {
    BodyNames(st, t, pc);
    CheckNames(st, t, pc);
  }

  lemma {:induction false} NamesKept(st: State, st2: State, t: Tid)
    requires AllFromClients(st) && OnlyThread(st, st2, t)
    requires st2.hist == st.hist && !st2.threads[t].WantOverall?
    ensures AllFromClients(st2)
  {
    forall pc | pc in st2.threads && pc.WantOverall? ensures StoreInvariant.Named(pc.op) {
      var u: Tid :| u < |st2.threads| && st2.threads[u] == pc;
      assert u != t && st.threads[u] == pc;
    }
  }

  lemma {:induction false} StepNames(st: State, t: Tid)
    requires Inv(st) && Enabled(st, t) && AllFromClients(st)
    ensures AllFromClients(Step(st, t))
  {
    ThreadOk(st, t);
    match st.threads[t]
    case WantOverall(op) =>
      assert st.threads[t] in st.threads && StoreInvariant.Named(op);
      NamesKept(st, Step(st, t).(hist := st.hist), t);
    case Holding(i, k) =>
      HoldThreads(st, t, i, k);
      HoldNames(st, t, i, k);
      NamesKept(st, Step(st, t), t);
    case Visit(_, _, _, _, _, _) =>
      VisitThreads(st, t, st.threads[t]);
      VisitNames(st, t, st.threads[t]);
      NamesKept(st, Step(st, t), t);
  }

  lemma {:induction false} NextNames(st: State, st2: State)
    requires Inv(st) && AllFromClients(st) && Next(st, st2)
    ensures AllFromClients(st2)
  {
    if t :| Enabled(st, t) && st2 == Step(st, t) {
      StepNames(st, t);
    } else if t, op :| CanCall(st, t, op) && st2 == Call(st, t, op) {
      forall pc | pc in st2.threads && pc.WantOverall? ensures StoreInvariant.Named(pc.op) {
        assert pc == WantOverall(op) || pc in st.threads;
      }
    } else {
      var t :| CanWakeSpuriously(st, t) && st2 == Spurious(st, t);
      NamesKept(st, st2, t);
    }
  }

  lemma {:induction false} BehaviourNames(sts: seq<State>, maxSize: nat, maxFiles: nat, policy: Policy, i: nat)
    requires Behaviour(sts, maxSize, maxFiles, policy) && i < |sts|
    ensures AllFromClients(sts[i])
  {
    if i > 0 {
      BehaviourNames(sts, maxSize, maxFiles, policy, i - 1);
      BehaviourKeeps(sts, maxSize, maxFiles, policy, i - 1);
      BehaviourNext(sts, maxSize, maxFiles, policy, i);
      NextNames(sts[i - 1], sts[i]);
    }
  }

  /** Whenever no thread has the overall mutex, the store as the pending effects will leave it has
      all the properties of a store that was only ever used by one thread. */
  lemma {:induction false} StoreIsSound(sts: seq<State>, maxSize: nat, maxFiles: nat, policy: Policy, i: nat)
    requires Behaviour(sts, maxSize, maxFiles, policy) && i < |sts| && 0 < maxSize && 0 < maxFiles
    requires sts[i].overall.None?
    ensures StoreInvariant.Inv(Flush(sts[i].threads, sts[i].s))
    ensures sts[i].s.num == |sts[i].s.order| <= maxFiles
  {
    BehaviourNames(sts, maxSize, maxFiles, policy, i);
    BehaviourKeeps(sts, maxSize, maxFiles, policy, i);
    BehaviourAgrees(sts, maxSize, maxFiles, policy, i);
    StoreInvariant.ReachableInv(maxSize, maxFiles, policy, sts[i].hist);
    StoreInvariant.RunLimits(Empty(maxSize, maxFiles, policy), sts[i].hist);
  }

  // ---------- every operation ends ----------

  lemma {:induction false} AcquireWork(st: State, t: Tid, op: Op)
    requires Enabled(st, t) && st.threads[t] == WantOverall(op) && |st.s.order| <= st.s.maxFiles
    ensures WorksOff(st, Step(st, t), t)
  {
  }

  lemma {:induction false} SignalledGoesThrough(st: State, t: Tid)
    requires Inv(st) && t < |st.threads| && st.threads[t].Visit? && st.threads[t].ph == Check(true)
    ensures st.threads[t].p in st.sync && !Blocked(st.threads[t].mode, st.sync[st.threads[t].p])
  {
    VisitedExists(st, t);
    RoleAt(st, t, st.threads[t].p);
  }

  lemma {:induction false} AcquireBounded(sts: seq<State>, maxSize: nat, maxFiles: nat, policy: Policy, i: nat)
    requires Behaviour(sts, maxSize, maxFiles, policy) && i < |sts| && 0 < maxSize && 0 < maxFiles
    requires sts[i].overall.None?
    ensures |sts[i].s.order| <= sts[i].s.maxFiles
  {
    StoreIsSound(sts, maxSize, maxFiles, policy, i);
    BehaviourKeeps(sts, maxSize, maxFiles, policy, i);
    BehaviourAgrees(sts, maxSize, maxFiles, policy, i);
    StoreInvariant.RunLimits(Empty(maxSize, maxFiles, policy), sts[i].hist);
  }

  /** Every step leaves less work to do. */
  lemma {:induction false} StepsUseWorkUp(sts: seq<State>, maxSize: nat, maxFiles: nat, policy: Policy, i: nat, t: Tid)
    requires Behaviour(sts, maxSize, maxFiles, policy) && i < |sts| && 0 < maxSize && 0 < maxFiles
    requires Enabled(sts[i], t)
    ensures Work(Step(sts[i], t)) < Work(sts[i])
  {
    var st := sts[i];
    BehaviourKeeps(sts, maxSize, maxFiles, policy, i);
    ThreadOk(st, t);
    match st.threads[t] {
      case WantOverall(op) =>
        AcquireBounded(sts, maxSize, maxFiles, policy, i);
        AcquireWork(st, t, op);
      case Holding(k, c) => HoldWork(st, t, k, c);
      case Visit(_, _, _, _, _, ph) =>
        if ph == Check(true) { SignalledGoesThrough(st, t); }
        VisitWork(st, t, st.threads[t]);
    }
    OthersWork(st, Step(st, t), t);
  }

  /** A stretch of a run without new calls and without wake-ups that nobody signalled. */
  ghost predicate StepsFrom(sts: seq<State>, from: nat) {
    forall i: nat :: from <= i && i + 1 < |sts| ==> SteppedAt(sts, i)
  }

  ghost predicate SteppedAt(sts: seq<State>, i: nat)
    requires i + 1 < |sts|
  {
    exists t: Tid :: Enabled(sts[i], t) && sts[i + 1] == Step(sts[i], t)
  }

  lemma {:induction false} StretchStep(sts: seq<State>, maxSize: nat, maxFiles: nat, policy: Policy, from: nat, i: nat)
    requires Behaviour(sts, maxSize, maxFiles, policy) && 0 < maxSize && 0 < maxFiles
    requires from <= i && i + 1 < |sts| && StepsFrom(sts, from)
    ensures Work(sts[i + 1]) < Work(sts[i])
  {
    assert SteppedAt(sts, i);
    var st := sts[i];
    var t: Tid :| Enabled(st, t) && sts[i + 1] == Step(st, t);
    StepsUseWorkUp(sts, maxSize, maxFiles, policy, i, t);
  }

  lemma {:induction false} StretchIsShort(sts: seq<State>, maxSize: nat, maxFiles: nat, policy: Policy, from: nat,
      i: nat)
    requires Behaviour(sts, maxSize, maxFiles, policy) && 0 < maxSize && 0 < maxFiles
    requires from <= i < |sts| && StepsFrom(sts, from)
    ensures Work(sts[i]) + (i - from) <= Work(sts[from])
  {
    if i > from {
      StretchIsShort(sts, maxSize, maxFiles, policy, from, i - 1);
      StretchStep(sts, maxSize, maxFiles, policy, from, i - 1);
    }
  }

  ghost predicate NobodyCanStep(st: State) { forall t: Tid :: !Enabled(st, t) }

  predicate AllReturned(st: State) { forall pc :: pc in st.threads ==> pc.Idle? }

  /** Every operation ends: once no new ones are called, a run cannot go on for more than `Work`
      steps, and when no thread can make a step any more, all of them have returned. */
  lemma {:induction false} OperationsEnd(sts: seq<State>, maxSize: nat, maxFiles: nat, policy: Policy, from: nat)
    requires Behaviour(sts, maxSize, maxFiles, policy) && 0 < maxSize && 0 < maxFiles
    requires from < |sts| && StepsFrom(sts, from)
    ensures |sts| - 1 - from <= Work(sts[from])
    ensures NobodyCanStep(sts[|sts| - 1]) ==> AllReturned(sts[|sts| - 1])
  {
    var last := sts[|sts| - 1];
    StretchIsShort(sts, maxSize, maxFiles, policy, from, |sts| - 1);
    forall pc | pc in last.threads && !pc.Idle? ensures exists u: Tid :: Enabled(last, u) {
      var t: Tid :| t < |last.threads| && last.threads[t] == pc;
      NoDeadlock(sts, maxSize, maxFiles, policy, |sts| - 1, t);
    }
  }

  // ---------- the order of the operations respects time ----------

  lemma {:induction false} StepHist(st: State, t: Tid)
    requires Inv(st) && Enabled(st, t)
    ensures st.hist <= Step(st, t).hist
  {
    ThreadOk(st, t);
    match st.threads[t]
    case WantOverall(_) =>
    case Holding(i, k) => HoldNames(st, t, i, k);
    case Visit(_, _, _, _, _, _) => VisitNames(st, t, st.threads[t]);
  }

  lemma {:induction false} NextHist(st: State, st2: State)
    requires Inv(st) && Next(st, st2)
    ensures st.hist <= st2.hist
  {
    if t :| Enabled(st, t) && st2 == Step(st, t) { StepHist(st, t); }
  }

  lemma {:induction false} HistGrowsOnce(sts: seq<State>, maxSize: nat, maxFiles: nat, policy: Policy, k: nat)
    requires Behaviour(sts, maxSize, maxFiles, policy) && k + 1 < |sts|
    ensures sts[k].hist <= sts[k + 1].hist
  {
    BehaviourKeeps(sts, maxSize, maxFiles, policy, k);
    assert NextAt(sts, k);
    NextHist(sts[k], sts[k + 1]);
  }

  lemma {:induction false} HistGrows(sts: seq<State>, maxSize: nat, maxFiles: nat, policy: Policy, j: nat, k: nat)
    requires Behaviour(sts, maxSize, maxFiles, policy) && j <= k < |sts|
    ensures sts[j].hist <= sts[k].hist
  {
    if j < k {
      HistGrows(sts, maxSize, maxFiles, policy, j, k - 1);
      HistGrowsOnce(sts, maxSize, maxFiles, policy, k - 1);
    }
  }

  /** The order respects time: an operation that was answered before another one was called has
      the smaller number, because the order only grows at its end; and its answer stays what it is. */
  lemma {:induction false} OrderRespectsTime(sts: seq<State>, maxSize: nat, maxFiles: nat, policy: Policy, j: nat,
      k: nat, i: nat)
    requires Behaviour(sts, maxSize, maxFiles, policy) && j <= k < |sts| && i in sts[j].results
    ensures i < |sts[j].hist| <= |sts[k].hist| && sts[k].hist[i] == sts[j].hist[i]
    ensures i in sts[k].results ==> sts[k].results[i] == sts[j].results[i]
  {
    HistGrows(sts, maxSize, maxFiles, policy, j, k);
    AnswersAreSequential(sts, maxSize, maxFiles, policy, j, i);
    if i in sts[k].results {
      AnswersAreSequential(sts, maxSize, maxFiles, policy, k, i);
      assert sts[k].hist[..i] == sts[j].hist[..i];
    }
  }
}
