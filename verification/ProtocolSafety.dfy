/** What holds in every state the threads can reach, whatever the interleaving: a writer is alone
    in a file, only the owner of `ordering` waits on `go`, a waiting thread whose turn has come has
    been signalled, and a freed file is never touched again. */
module ProtocolSafety {
  import opened StoreTypes
  import opened StoreSpec
  import opened Sequences
  import opened Protocol

  // ---------- the part a thread plays at a file ----------

  /** The locks thread has at a file, whether it is inside, asleep, or signalled, and what it relies on:
      `past` that nobody owns `ordering`, `clear` that nobody is inside, `gone` that nobody has
      the file's mutex either. */
  datatype Role = Role(
    ord: bool, mutex: bool, asReader: bool, asWriter: bool, sleeps: bool, woken: bool,
    past: bool, clear: bool, gone: bool, signals: bool, reader: bool)

  const NOROLE := Role(false, false, false, false, false, false, false, false, false, false, false)

  predicate Inside(ph: Phase) {
    ph == RelOrd || ph == RelMutex || ph == Body || ph == LeaveLate || ph == ExitLock || ph == ExitDec
  }

  predicate Leaving(ph: Phase) {
    ph == ExitLock || ph == ExitDec || ph == ExitSignal || ph == ExitUnlock
  }

  predicate HasOrd(ph: Phase) {
    ph == WantMutex || ph == LeaveEarly || ph.Check? || ph == Asleep || ph.Reacquire? || ph == RelOrd
  }

  predicate HasMutex(ph: Phase) {
    ph == LeaveEarly || ph.Check? || ph == RelOrd || ph == RelMutex || ph == ExitDec || ph == ExitSignal
      || ph == ExitUnlock
  }

  function VisitRole(pc: PC): Role
    requires pc.Visit?
  {
    Role(HasOrd(pc.ph), HasMutex(pc.ph),
         pc.mode == Reader && Inside(pc.ph),
         (pc.mode == Writer || pc.mode == Quiet) && Inside(pc.ph),
         pc.ph == Asleep,
         (pc.ph.Check? || pc.ph.Reacquire?) && pc.ph.woken,
         pc.own && (pc.ph == RelMutex || pc.ph == Body || pc.ph == LeaveLate || Leaving(pc.ph)),
         pc.mode == Probe && (pc.ph == RelOrd || pc.ph == RelMutex),
         false, pc.ph == ExitSignal, pc.mode == Reader)
  }

  const WRITING := NOROLE.(asWriter := true, past := true)

  function RoleOf(pc: PC, p: Path): Role {
    match pc
    case Holding(_, k) =>
      if k.AppendEvict? && k.q == p then WRITING
      else if k.RemoveNow? && k.q == p then NOROLE.(past := true, clear := true, gone := true)
      else NOROLE
    case Visit(_, _, q, _, k, _) =>
      if q == p then VisitRole(pc) else if k.AppendVictim? && k.q == p then WRITING else NOROLE
    case _ => NOROLE
  }

  function At(threads: seq<PC>, t: Tid, p: Path): Role {
    if t < |threads| then RoleOf(threads[t], p) else NOROLE
  }

  predicate Shut(reader: bool, y: Sync) {
    y.activeWriters > 0 || (!reader && y.activeReaders > 0)
  }

  /** What the synchronisation variables of a file say about one thread. */
  ghost predicate RoleOk(y: Sync, r: Role, t: Tid) {
    && (y.ord == Some(t) <==> r.ord)
    && (y.mutex == Some(t) <==> r.mutex)
    && (t in y.readers <==> r.asReader)
    && (y.writer == Some(t) <==> r.asWriter)
    && (t in y.waitset ==> r.sleeps)
    && (r.sleeps && t !in y.waitset ==> !Shut(r.reader, y))
    && (r.woken ==> !Shut(r.reader, y))
    && (r.past ==> y.ord.None?)
    && (r.clear || r.signals ==> y.readers == {} && y.writer.None?)
    && (r.gone ==> y.mutex.None?)
  }

  /** A thread waits although it could go on only while the owner of the mutex is about to signal. */
  ghost predicate Signalled(y: Sync, threads: seq<PC>, p: Path, t: Tid) {
    t in y.waitset && !Shut(At(threads, t, p).reader, y) ==>
      y.mutex.Some? && At(threads, y.mutex.value, p).signals
  }

  ghost predicate FileOk(y: Sync, threads: seq<PC>, p: Path) {
    && y.activeReaders == |y.readers|
    && y.activeWriters == (if y.writer.Some? then 1 else 0)
    && (y.writer.Some? ==> y.readers == {})
    && forall t: Tid :: RoleOk(y, At(threads, t, p), t) && Signalled(y, threads, p, t)
  }

  // ---------- what a program counter promises ----------

  predicate Owns(pc: PC) { pc.Holding? || (pc.Visit? && pc.own) }

  predicate Entering(ph: Phase) {
    ph == WantOrd || ph == WantMutex || ph.Check? || ph == Asleep || ph.Reacquire?
  }

  predicate Early(ph: Phase) { Entering(ph) || ph == RelOrd || ph == RelMutex }

  predicate FitsMode(k: Cont, mode: Mode) {
    match k
    case Deliverable(e) => mode == if e.ReadIt? then Reader else Writer
    case AppendEnter(_, _, _) => mode == Writer
    case ReadAt(_, _, _, _) => mode == Reader
    case ReadNext(_, _, _, _) => mode == Reader
    case DepartAt(_, _, _) => mode == Quiet
    case DepartNext(_, _, _) => mode == Quiet
    case OpenVictim(_, _, _) => mode == Victim
    case AppendVictim(_, _, _) => mode == Victim
    case RemoveAt(_) => mode == Probe
    case Answer(_) => mode == Reader || mode == Writer
    case _ => false
  }

  /** The phases in which a visit for this purpose can be, with and without the overall mutex. */
  predicate FitsPhase(k: Cont, own: bool, ph: Phase) {
    match k
    case Deliverable(_) =>
      if ph == WantOrd || ph == WantMutex || ph == LeaveEarly then own else !own && (Early(ph) || ph == Body)
    case Answer(_) => if ph == LeaveLate then own else !own && Leaving(ph)
    case RemoveAt(_) => own && Early(ph)
    case OpenVictim(_, _, _) => own && Entering(ph)
    case AppendVictim(_, _, _) => own && Entering(ph)
    case ReadNext(_, _, _, _) => own && Leaving(ph)
    case DepartNext(_, _, _) => own && Leaving(ph)
    case _ => own && (Early(ph) || ph == Body)
  }

  predicate KindOk(pc: PC) {
    pc.Visit? ==> FitsMode(pc.k, pc.mode) && FitsPhase(pc.k, pc.own, pc.ph)
  }

  ghost predicate KindsOk(st: State) {
    forall t: Tid :: t < |st.threads| ==> KindOk(st.threads[t])
  }

  /** The overall mutex has at most one owner, and that is the thread whose code is under it. */
  ghost predicate OwnerOk(st: State) {
    forall t: Tid :: st.overall == Some(t) <==> t < |st.threads| && Owns(st.threads[t])
  }

  ghost predicate FilesOk(st: State) {
    forall p :: p in st.sync ==> FileOk(st.sync[p], st.threads, p)
  }

  /** The file a thread visits, and the one it is inside of or about to remove, exist. */
  predicate PlaceOk(pc: PC, sync: map<Path, Sync>) {
    && (pc.Visit? ==> pc.p in sync && (pc.k.AppendVictim? ==> pc.k.q in sync))
    && (pc.Holding? && (pc.k.AppendEvict? || pc.k.RemoveNow?) ==> pc.k.q in sync)
  }

  ghost predicate PlacesOk(st: State) {
    forall t: Tid :: t < |st.threads| ==> PlaceOk(st.threads[t], st.sync)
  }

  /** The part of the invariant about locks, counters and signals. */
  ghost predicate SyncInv(st: State) {
    OwnerOk(st) && KindsOk(st) && PlacesOk(st) && FilesOk(st)
  }

  // ---------- files that the step does not concern ----------

  lemma {:induction false} FileFrame(y: Sync, a: seq<PC>, b: seq<PC>, p: Path)
    requires FileOk(y, a, p)
    requires forall t: Tid :: At(a, t, p) == At(b, t, p)
    ensures FileOk(y, b, p)
  {
    forall t: Tid ensures RoleOk(y, At(b, t, p), t) && Signalled(y, b, p, t) {
      assert RoleOk(y, At(a, t, p), t) && Signalled(y, a, p, t);
      assert y.mutex.Some? ==> At(a, y.mutex.value, p) == At(b, y.mutex.value, p);
    }
  }

  /** Only the files at which the stepping thread changes its role need a proof of their own. */
  lemma {:induction false} OtherFiles(st: State, st2: State, t: Tid, pc: PC)
    requires FilesOk(st) && t < |st.threads| && st2.threads == st.threads[t := pc]
    requires forall p ::
      p in st2.sync && (p !in st.sync || st2.sync[p] != st.sync[p] || RoleOf(pc, p) != RoleOf(st.threads[t], p)) ==>
      FileOk(st2.sync[p], st2.threads, p)
    ensures FilesOk(st2)
  {
    forall p | p in st2.sync ensures FileOk(st2.sync[p], st2.threads, p) {
      if p in st.sync && st2.sync[p] == st.sync[p] && RoleOf(pc, p) == RoleOf(st.threads[t], p) {
        FileFrame(st.sync[p], st.threads, st2.threads, p);
      }
    }
  }

  // ---------- the visited file, one phase at a time ----------

  /** What the file says about a thread, and where that thread is after a step of t. */
  lemma {:induction false} OtherRole(y: Sync, threads: seq<PC>, t: Tid, pc: PC, p: Path, u: Tid)
    requires FileOk(y, threads, p) && t < |threads|
    ensures RoleOk(y, At(threads, u, p), u) && Signalled(y, threads, p, u)
    ensures At(threads[t := pc], u, p) == if u == t then RoleOf(pc, p) else At(threads, u, p)
  {
  }

  lemma {:induction false} TakeOrd(y: Sync, threads: seq<PC>, t: Tid, pc: PC, p: Path, r: Role)
    requires FileOk(y, threads, p) && t < |threads| && y.ord.None?
    requires At(threads, t, p) == r && RoleOf(pc, p) == r.(ord := true) && r == NOROLE.(reader := r.reader)
    requires forall u: Tid :: u != t ==> !At(threads, u, p).past
    ensures FileOk(y.(ord := Some(t)), threads[t := pc], p)
  {
    var y2, threads2 := y.(ord := Some(t)), threads[t := pc];
    forall u: Tid ensures RoleOk(y2, At(threads2, u, p), u) && Signalled(y2, threads2, p, u) {
      OtherRole(y, threads, t, pc, p, u);
    }
  }

  lemma {:induction false} TakeMutex(y: Sync, threads: seq<PC>, t: Tid, pc: PC, p: Path, r: Role)
    requires FileOk(y, threads, p) && t < |threads| && y.mutex.None?
    requires At(threads, t, p) == r && RoleOf(pc, p) == r.(mutex := true) && !r.signals && !r.gone
    requires forall u: Tid :: u != t ==> !At(threads, u, p).gone
    ensures FileOk(y.(mutex := Some(t)), threads[t := pc], p)
  {
    var y2, threads2 := y.(mutex := Some(t)), threads[t := pc];
    forall u: Tid ensures RoleOk(y2, At(threads2, u, p), u) && Signalled(y2, threads2, p, u) {
      OtherRole(y, threads, t, pc, p, u);
    }
  }

  /** Nobody relies on the mutex being free while a thread owns `ordering` or is inside. */
  lemma {:induction false} NobodyGone(y: Sync, threads: seq<PC>, t: Tid, p: Path)
    requires FileOk(y, threads, p)
    requires var r := At(threads, t, p); r.ord || r.asReader || r.asWriter
    requires forall u: Tid :: At(threads, u, p).gone ==> At(threads, u, p).past && At(threads, u, p).clear
    ensures forall u: Tid :: !At(threads, u, p).gone
  {
    assert RoleOk(y, At(threads, t, p), t);
    forall u: Tid ensures !At(threads, u, p).gone {
      assert RoleOk(y, At(threads, u, p), u);
    }
  }

  lemma {:induction false} Sleep(y: Sync, threads: seq<PC>, t: Tid, pc: PC, p: Path, r: Role)
    requires FileOk(y, threads, p) && t < |threads| && Shut(r.reader, y)
    requires At(threads, t, p) == r && r.ord && r.mutex && !r.clear && !r.signals && !r.past && !r.gone
    requires RoleOf(pc, p) == r.(mutex := false, sleeps := true, woken := false)
    ensures FileOk(y.(mutex := None, waitset := y.waitset + {t}), threads[t := pc], p)
  {
    var y2, threads2 := y.(mutex := None, waitset := y.waitset + {t}), threads[t := pc];
    forall u: Tid ensures RoleOk(y2, At(threads2, u, p), u) && Signalled(y2, threads2, p, u) {
      OtherRole(y, threads, t, pc, p, u);
    }
  }

  /** A thread that is not waiting for a signal any more finds the way free. */
  lemma {:induction false} Wake(y: Sync, threads: seq<PC>, t: Tid, pc: PC, p: Path, r: Role)
    requires FileOk(y, threads, p) && t < |threads| && t !in y.waitset
    requires At(threads, t, p) == r && r.sleeps && !r.signals
    requires RoleOf(pc, p) == r.(sleeps := false, woken := true)
    ensures FileOk(y, threads[t := pc], p)
  {
    var threads2 := threads[t := pc];
    forall u: Tid ensures RoleOk(y, At(threads2, u, p), u) && Signalled(y, threads2, p, u) {
      OtherRole(y, threads, t, pc, p, u);
    }
  }

  lemma {:induction false} WakeSpuriously(y: Sync, threads: seq<PC>, t: Tid, pc: PC, p: Path, r: Role)
    requires FileOk(y, threads, p) && t < |threads|
    requires At(threads, t, p) == r && r.sleeps && !r.signals && !r.woken
    requires RoleOf(pc, p) == r.(sleeps := false)
    ensures FileOk(y.(waitset := y.waitset - {t}), threads[t := pc], p)
  {
    var y2, threads2 := y.(waitset := y.waitset - {t}), threads[t := pc];
    forall u: Tid ensures RoleOk(y2, At(threads2, u, p), u) && Signalled(y2, threads2, p, u) {
      OtherRole(y, threads, t, pc, p, u);
    }
  }

  /** Whoever is at the test of the wait loop is the only one there, and whoever waits on `go`
      or was signalled owns `ordering`: so nobody else relies on the counters. */
  lemma {:induction false} OnlyEntrant(y: Sync, threads: seq<PC>, t: Tid, p: Path)
    requires FileOk(y, threads, p)
    requires At(threads, t, p).ord && At(threads, t, p).mutex
    requires forall u: Tid :: RoleFits(At(threads, u, p))
    ensures forall u: Tid :: u != t ==> var r := At(threads, u, p);
      !r.sleeps && !r.woken && !r.clear && !r.signals && !r.ord && !r.mutex && !r.gone
  {
    assert RoleOk(y, At(threads, t, p), t);
    forall u: Tid | u != t ensures var r := At(threads, u, p);
      !r.sleeps && !r.woken && !r.clear && !r.signals && !r.ord && !r.mutex && !r.gone {
      assert RoleOk(y, At(threads, u, p), u) && RoleFits(At(threads, u, p));
    }
  }

  /** Facts about roles that hold by their definition. */
  predicate RoleFits(r: Role) {
    && (r.sleeps || r.woken ==> r.ord)
    && (r.signals ==> r.mutex)
    && (r.clear ==> r.ord || r.mutex || r.gone)
    && (r.gone ==> r.past && r.clear)
  }

  lemma {:induction false} RolesFit(threads: seq<PC>, p: Path)
    ensures forall u: Tid :: RoleFits(At(threads, u, p))
  {
  }

  lemma {:induction false} EnterAsReader(y: Sync, threads: seq<PC>, t: Tid, pc: PC, p: Path, r: Role)
    requires FileOk(y, threads, p) && t < |threads| && !Shut(true, y)
    requires At(threads, t, p) == r && r.ord && r.mutex && r.reader && !r.asReader && !r.asWriter && !r.sleeps
      && !r.clear && !r.past && !r.gone && !r.signals
    requires RoleOf(pc, p) == r.(asReader := true, woken := false)
    ensures FileOk(y.(activeReaders := y.activeReaders + 1, readers := y.readers + {t}), threads[t := pc], p)
  {
    RolesFit(threads, p);
    OnlyEntrant(y, threads, t, p);
    assert RoleOk(y, r, t);
    var y2, threads2 := y.(activeReaders := y.activeReaders + 1, readers := y.readers + {t}), threads[t := pc];
    forall u: Tid ensures RoleOk(y2, At(threads2, u, p), u) && Signalled(y2, threads2, p, u) {
      OtherRole(y, threads, t, pc, p, u);
    }
  }

  lemma {:induction false} EnterAsWriter(y: Sync, threads: seq<PC>, t: Tid, pc: PC, p: Path, r: Role)
    requires FileOk(y, threads, p) && t < |threads| && !Shut(false, y)
    requires At(threads, t, p) == r && r.ord && r.mutex && !r.reader && !r.asReader && !r.asWriter && !r.sleeps
      && !r.clear && !r.past && !r.gone && !r.signals
    requires RoleOf(pc, p) == r.(asWriter := true, woken := false)
    ensures FileOk(y.(activeWriters := y.activeWriters + 1, writer := Some(t)), threads[t := pc], p)
    ensures y.readers == {} && y.writer.None?
  {
    RolesFit(threads, p);
    OnlyEntrant(y, threads, t, p);
    assert RoleOk(y, r, t);
    var y2, threads2 := y.(activeWriters := y.activeWriters + 1, writer := Some(t)), threads[t := pc];
    forall u: Tid ensures RoleOk(y2, At(threads2, u, p), u) && Signalled(y2, threads2, p, u) {
      OtherRole(y, threads, t, pc, p, u);
    }
  }

  /** A probe that gets through knows that nobody is inside. */
  lemma {:induction false} PassProbe(y: Sync, threads: seq<PC>, t: Tid, pc: PC, p: Path, r: Role)
    requires FileOk(y, threads, p) && t < |threads| && !Shut(false, y)
    requires At(threads, t, p) == r && r.ord && r.mutex && !r.sleeps
    requires RoleOf(pc, p) == r.(clear := true, woken := false) && !r.signals
    ensures FileOk(y, threads[t := pc], p)
    ensures y.readers == {} && y.writer.None?
  {
    var threads2 := threads[t := pc];
    forall u: Tid ensures RoleOk(y, At(threads2, u, p), u) && Signalled(y, threads2, p, u) {
      OtherRole(y, threads, t, pc, p, u);
    }
  }

  lemma {:induction false} DropOrd(y: Sync, threads: seq<PC>, t: Tid, pc: PC, p: Path, r: Role)
    requires FileOk(y, threads, p) && t < |threads|
    requires At(threads, t, p) == r && r.ord && !r.sleeps && !r.woken && !r.signals
    requires RoleOf(pc, p) == r.(ord := false, past := RoleOf(pc, p).past)
    ensures FileOk(y.(ord := None), threads[t := pc], p)
  {
    var y2, threads2 := y.(ord := None), threads[t := pc];
    forall u: Tid ensures RoleOk(y2, At(threads2, u, p), u) && Signalled(y2, threads2, p, u) {
      OtherRole(y, threads, t, pc, p, u);
    }
  }

  /** The mutex is given back by a thread that is not about to signal. */
  lemma {:induction false} DropMutex(y: Sync, threads: seq<PC>, t: Tid, pc: PC, p: Path, r: Role)
    requires FileOk(y, threads, p) && t < |threads|
    requires At(threads, t, p) == r && r.mutex && !r.signals && !r.sleeps && !r.woken
    requires var q := RoleOf(pc, p);
      q == r.(mutex := false, past := q.past, gone := q.gone, reader := q.reader) && (q.past ==> r.past)
        && (q.gone ==> r.clear)
    ensures FileOk(y.(mutex := None), threads[t := pc], p)
  {
    var y2, threads2 := y.(mutex := None), threads[t := pc];
    forall u: Tid ensures RoleOk(y2, At(threads2, u, p), u) && Signalled(y2, threads2, p, u) {
      OtherRole(y, threads, t, pc, p, u);
    }
  }

  /** Without an owner of `ordering` nobody waits on `go`. */
  lemma {:induction false} LeaveAsReader(y: Sync, threads: seq<PC>, t: Tid, pc: PC, p: Path, r: Role)
    requires FileOk(y, threads, p) && t < |threads|
    requires At(threads, t, p) == r && r.asReader && !r.asWriter && r.mutex && !r.signals && !r.ord && !r.sleeps
      && !r.woken && !r.clear && !r.gone
    requires RoleOf(pc, p) == r.(asReader := false, signals := y.activeReaders - 1 == 0)
    ensures FileOk(y.(activeReaders := y.activeReaders - 1, readers := y.readers - {t}), threads[t := pc], p)
  {
    assert RoleOk(y, r, t);
    assert |y.readers - {t}| == |y.readers| - 1;
    var y2, threads2 := y.(activeReaders := y.activeReaders - 1, readers := y.readers - {t}), threads[t := pc];
    forall u: Tid ensures RoleOk(y2, At(threads2, u, p), u) && Signalled(y2, threads2, p, u) {
      OtherRole(y, threads, t, pc, p, u);
    }
  }

  lemma {:induction false} LeaveAsWriter(y: Sync, threads: seq<PC>, t: Tid, pc: PC, p: Path, r: Role)
    requires FileOk(y, threads, p) && t < |threads|
    requires At(threads, t, p) == r && r.asWriter && !r.asReader && r.mutex && !r.signals && !r.ord && !r.sleeps
      && !r.woken && !r.clear && !r.gone
    requires var q := RoleOf(pc, p); q == r.(asWriter := false, signals := q.signals) && (q.signals || r.past)
    ensures FileOk(y.(activeWriters := y.activeWriters - 1, writer := None), threads[t := pc], p)
  {
    RolesFit(threads, p);
    assert RoleOk(y, r, t);
    var y2, threads2 := y.(activeWriters := y.activeWriters - 1, writer := None), threads[t := pc];
    forall u: Tid ensures RoleOk(y2, At(threads2, u, p), u) && Signalled(y2, threads2, p, u) {
      OtherRole(y, threads, t, pc, p, u);
    }
  }

  /** At most one thread waits on `go`, so one signal is enough. */
  lemma {:induction false} OneSleeper(y: Sync, threads: seq<PC>, p: Path, t: Tid, u: Tid)
    requires FileOk(y, threads, p)
    requires At(threads, t, p).sleeps && At(threads, u, p).sleeps
    ensures t == u && y.ord == Some(t)
  {
    RolesFit(threads, p);
    assert RoleOk(y, At(threads, t, p), t) && RoleOk(y, At(threads, u, p), u);
    assert RoleFits(At(threads, t, p)) && RoleFits(At(threads, u, p));
  }

  lemma {:induction false} SendSignal(y: Sync, threads: seq<PC>, t: Tid, pc: PC, p: Path, r: Role)
    requires FileOk(y, threads, p) && t < |threads|
    requires At(threads, t, p) == r && r.signals && r.mutex && !r.sleeps && !r.woken
    requires RoleOf(pc, p) == r.(signals := false)
    ensures FileOk(y.(waitset := Signal(y.waitset)), threads[t := pc], p)
  {
    assert RoleOk(y, r, t);
    forall u: Tid, v: Tid | u in y.waitset && v in y.waitset ensures u == v {
      assert RoleOk(y, At(threads, u, p), u) && RoleOk(y, At(threads, v, p), v);
      OneSleeper(y, threads, p, u, v);
    }
    assert Signal(y.waitset) == {};
    var y2, threads2 := y.(waitset := Signal(y.waitset)), threads[t := pc];
    forall u: Tid ensures RoleOk(y2, At(threads2, u, p), u) && Signalled(y2, threads2, p, u) {
      OtherRole(y, threads, t, pc, p, u);
    }
  }

  predicate Relaxes(r: Role, q: Role) {
    && q == r.(past := q.past, woken := q.woken, reader := q.reader, clear := q.clear, gone := q.gone)
    && (q.past ==> r.past) && (q.clear ==> r.clear) && (q.gone ==> r.gone) && !q.woken
  }

  /** A change of program counter that only lets a reliance go keeps the file as it is. */
  lemma {:induction false} Relax(y: Sync, threads: seq<PC>, t: Tid, pc: PC, p: Path, r: Role)
    requires FileOk(y, threads, p) && t < |threads|
    requires At(threads, t, p) == r && !r.sleeps
    requires Relaxes(r, RoleOf(pc, p))
    ensures FileOk(y, threads[t := pc], p)
  {
    var threads2 := threads[t := pc];
    forall u: Tid ensures RoleOk(y, At(threads2, u, p), u) && Signalled(y, threads2, p, u) {
      OtherRole(y, threads, t, pc, p, u);
    }
  }

  // ---------- locks and signals, one phase at a time ----------

  lemma {:induction false} OwnerKept(st: State, st2: State, t: Tid, pc2: PC)
    requires OwnerOk(st) && t < |st.threads| && st2.threads == st.threads[t := pc2]
    requires st2.overall == st.overall && Owns(pc2) == Owns(st.threads[t])
    ensures OwnerOk(st2)
  {
    forall u: Tid ensures st2.overall == Some(u) <==> u < |st2.threads| && Owns(st2.threads[u]) {
      assert st.overall == Some(u) <==> u < |st.threads| && Owns(st.threads[u]);
    }
  }

  lemma {:induction false} OwnerLeaves(st: State, st2: State, t: Tid, pc2: PC)
    requires OwnerOk(st) && t < |st.threads| && st2.threads == st.threads[t := pc2]
    requires st2.overall.None? && Owns(st.threads[t]) && !Owns(pc2)
    ensures OwnerOk(st2)
  {
    assert st.overall == Some(t);
    forall u: Tid ensures st2.overall == Some(u) <==> u < |st2.threads| && Owns(st2.threads[u]) {
      assert st.overall == Some(u) <==> u < |st.threads| && Owns(st.threads[u]);
    }
  }

  /** Only the owner of the overall mutex relies on `ordering` being free. */
  lemma {:induction false} OnlyOwnerRelies(st: State, t: Tid, p: Path)
    requires OwnerOk(st) && KindsOk(st) && t < |st.threads| && Owns(st.threads[t])
    ensures forall u: Tid :: u != t ==> !At(st.threads, u, p).past
  {
    forall u: Tid | u != t ensures !At(st.threads, u, p).past {
      assert st.overall == Some(t) <==> t < |st.threads| && Owns(st.threads[t]);
      assert st.overall == Some(u) <==> u < |st.threads| && Owns(st.threads[u]);
      if u < |st.threads| { assert KindOk(st.threads[u]); }
    }
  }

  /** The step of a visitor in phase ph, and its next program counter. */
  ghost predicate InPhase(st: State, t: Tid, ph: Phase) {
    && SyncInv(st) && Ready(st, t) && st.threads[t].Visit? && st.threads[t].ph == ph
    && KindOk(st.threads[t]) && PlaceOk(st.threads[t], st.sync)
  }

  ghost predicate VisitsFile(st: State, t: Tid)
    requires t < |st.threads| && st.threads[t].Visit?
  {
    var pc := st.threads[t];
    Shape(st.s) && pc.p in st.s.tab && (pc.mode == Victim ==> pc.p !in st.s.order)
  }

  /** A step that leaves the other files' variables and roles alone. */
  lemma {:induction false} VisitKeeps(st: State, st2: State, t: Tid, pc2: PC)
    requires SyncInv(st) && t < |st.threads| && st.threads[t].Visit?
    requires st2.threads == st.threads[t := pc2] && KindOk(pc2) && OwnerOk(st2)
    requires var p := st.threads[t].p;
      && p in st.sync && st2.sync.Keys == st.sync.Keys
      && FileOk(st2.sync[p], st2.threads, p)
      && forall q :: q in st.sync && q != p ==> st2.sync[q] == st.sync[q]
    requires pc2.Visit? && pc2.p == st.threads[t].p
      && (pc2.k == st.threads[t].k || !(st.threads[t].k.AppendVictim? || pc2.k.AppendVictim?))
    requires PlaceOk(pc2, st.sync)
    ensures SyncInv(st2)
  {
    PlacesKept(st, st2, t, pc2);
    OtherFiles(st, st2, t, pc2);
  }

  lemma {:induction false} PlacesKept(st: State, st2: State, t: Tid, pc2: PC)
    requires PlacesOk(st) && t < |st.threads| && st2.threads == st.threads[t := pc2]
    requires st2.sync.Keys >= st.sync.Keys && PlaceOk(pc2, st2.sync)
    ensures PlacesOk(st2)
  {
    forall u: Tid | u < |st2.threads| ensures PlaceOk(st2.threads[u], st2.sync) {
      if u != t { assert PlaceOk(st.threads[u], st.sync); }
    }
  }

  lemma {:induction false} WantOrdSync(st: State, t: Tid)
    requires InPhase(st, t, WantOrd) && VisitsFile(st, t)
    ensures SyncInv(VisitStep(st, t, st.threads[t]))
  {
    var pc := st.threads[t];
    var p := pc.p;
    var y := st.sync[p];
    var st2 := VisitStep(st, t, pc);
    var pc2 := pc.(ph := WantMutex);
    OnlyOwnerRelies(st, t, p);
    TakeOrd(y, st.threads, t, pc2, p, VisitRole(pc));
    OwnerKept(st, st2, t, pc2);
    VisitKeeps(st, st2, t, pc2);
  }

  /** A step of t within its visit that changes the variables of the visited file to y2. */
  ghost predicate OneFileStep(st: State, st2: State, t: Tid, pc2: PC, y2: Sync)
    requires t < |st.threads| && st.threads[t].Visit?
  {
    (&& st2.threads == st.threads[t := pc2] && st2.overall == st.overall
     && st2.sync == st.sync[st.threads[t].p := y2]
     && pc2.Visit? && pc2 == st.threads[t].(ph := pc2.ph) && KindOk(pc2) && PlaceOk(pc2, st.sync)) == true
  }

  lemma {:induction false} OneFileKeeps(st: State, st2: State, t: Tid, pc2: PC, y2: Sync)
    requires SyncInv(st) && t < |st.threads| && st.threads[t].Visit? && st.threads[t].p in st.sync
    requires OneFileStep(st, st2, t, pc2, y2) && FileOk(y2, st.threads[t := pc2], st.threads[t].p)
    ensures SyncInv(st2)
  {
    OwnerKept(st, st2, t, pc2);
    VisitKeeps(st, st2, t, pc2);
  }

  lemma {:induction false} WantMutexSync(st: State, t: Tid)
    requires InPhase(st, t, WantMutex) && VisitsFile(st, t)
    ensures SyncInv(VisitStep(st, t, st.threads[t]))
  {
    var pc := st.threads[t];
    var y := st.sync[pc.p];
    var pc2 := pc.(ph := if pc.k.Deliverable? then LeaveEarly else Check(false));
    RolesFit(st.threads, pc.p);
    NobodyGone(y, st.threads, t, pc.p);
    TakeMutex(y, st.threads, t, pc2, pc.p, VisitRole(pc));
    OneFileKeeps(st, VisitStep(st, t, pc), t, pc2, y.(mutex := Some(t)));
  }

  lemma {:induction false} LeaveEarlySync(st: State, t: Tid)
    requires InPhase(st, t, LeaveEarly) && VisitsFile(st, t)
    ensures SyncInv(VisitStep(st, t, st.threads[t]))
  {
    var pc := st.threads[t];
    var p := pc.p;
    var y := st.sync[p];
    var st2 := VisitStep(st, t, pc);
    var pc2 := pc.(own := false, ph := Check(false));
    Relax(y, st.threads, t, pc2, p, VisitRole(pc));
    OwnerLeaves(st, st2, t, pc2);
    VisitKeeps(st, st2, t, pc2);
  }

  lemma {:induction false} AsleepSync(st: State, t: Tid)
    requires InPhase(st, t, Asleep) && VisitsFile(st, t)
    ensures SyncInv(VisitStep(st, t, st.threads[t]))
  {
    var pc := st.threads[t];
    var p := pc.p;
    var y := st.sync[p];
    var st2 := VisitStep(st, t, pc);
    var pc2 := pc.(ph := Reacquire(true));
    Wake(y, st.threads, t, pc2, p, VisitRole(pc));
    OwnerKept(st, st2, t, pc2);
    VisitKeeps(st, st2, t, pc2);
  }

  lemma {:induction false} ReacquireSync(st: State, t: Tid, woken: bool)
    requires InPhase(st, t, Reacquire(woken)) && VisitsFile(st, t)
    ensures SyncInv(VisitStep(st, t, st.threads[t]))
  {
    var pc := st.threads[t];
    var y := st.sync[pc.p];
    RolesFit(st.threads, pc.p);
    NobodyGone(y, st.threads, t, pc.p);
    TakeMutex(y, st.threads, t, pc.(ph := Check(woken)), pc.p, VisitRole(pc));
    OneFileKeeps(st, VisitStep(st, t, pc), t, pc.(ph := Check(woken)), y.(mutex := Some(t)));
  }

  lemma {:induction false} RelOrdSync(st: State, t: Tid)
    requires InPhase(st, t, RelOrd) && VisitsFile(st, t)
    ensures SyncInv(VisitStep(st, t, st.threads[t]))
  {
    var pc := st.threads[t];
    var p := pc.p;
    var y := st.sync[p];
    var st2 := VisitStep(st, t, pc);
    var pc2 := pc.(ph := RelMutex);
    DropOrd(y, st.threads, t, pc2, p, VisitRole(pc));
    OwnerKept(st, st2, t, pc2);
    VisitKeeps(st, st2, t, pc2);
  }

  lemma {:induction false} LeaveLateSync(st: State, t: Tid)
    requires InPhase(st, t, LeaveLate) && VisitsFile(st, t)
    ensures SyncInv(VisitStep(st, t, st.threads[t]))
  {
    var pc := st.threads[t];
    var p := pc.p;
    var y := st.sync[p];
    var st2 := VisitStep(st, t, pc);
    var pc2 := pc.(own := false, ph := ExitLock);
    Relax(y, st.threads, t, pc2, p, VisitRole(pc));
    OwnerLeaves(st, st2, t, pc2);
    VisitKeeps(st, st2, t, pc2);
  }

  lemma {:induction false} ExitLockSync(st: State, t: Tid)
    requires InPhase(st, t, ExitLock) && VisitsFile(st, t)
    ensures SyncInv(VisitStep(st, t, st.threads[t]))
  {
    var pc := st.threads[t];
    var p := pc.p;
    var y := st.sync[p];
    var st2 := VisitStep(st, t, pc);
    var pc2 := pc.(ph := ExitDec);
    RolesFit(st.threads, p);
    NobodyGone(y, st.threads, t, p);
    TakeMutex(y, st.threads, t, pc2, p, VisitRole(pc));
    OwnerKept(st, st2, t, pc2);
    VisitKeeps(st, st2, t, pc2);
  }

  lemma {:induction false} ReaderLeaves(st: State, t: Tid)
    requires InPhase(st, t, ExitDec) && st.threads[t].mode == Reader
    ensures var st2 := LeaveStep(st, t, st.threads[t]); var p := st.threads[t].p;
      FileOk(st2.sync[p], st2.threads, p)
  {
    var pc := st.threads[t];
    var pc2 := LeaveStep(st, t, pc).threads[t];
    LeaveAsReader(st.sync[pc.p], st.threads, t, pc2, pc.p, VisitRole(pc));
  }

  lemma {:induction false} WriterLeaves(st: State, t: Tid)
    requires InPhase(st, t, ExitDec) && st.threads[t].mode != Reader
    ensures var st2 := LeaveStep(st, t, st.threads[t]); var p := st.threads[t].p;
      FileOk(st2.sync[p], st2.threads, p)
  {
    var pc := st.threads[t];
    var pc2 := LeaveStep(st, t, pc).threads[t];
    LeaveAsWriter(st.sync[pc.p], st.threads, t, pc2, pc.p, VisitRole(pc));
  }

  lemma {:induction false} LeaveFile(st: State, t: Tid)
    requires InPhase(st, t, ExitDec)
    ensures var st2 := LeaveStep(st, t, st.threads[t]); var p := st.threads[t].p;
      FileOk(st2.sync[p], st2.threads, p)
  {
    if st.threads[t].mode == Reader { ReaderLeaves(st, t); } else { WriterLeaves(st, t); }
  }

  lemma {:induction false} ExitDecSync(st: State, t: Tid)
    requires InPhase(st, t, ExitDec)
    ensures SyncInv(LeaveStep(st, t, st.threads[t]))
  {
    var pc := st.threads[t];
    var st2 := LeaveStep(st, t, pc);
    LeaveFile(st, t);
    OwnerKept(st, st2, t, st2.threads[t]);
    VisitKeeps(st, st2, t, st2.threads[t]);
  }

  lemma {:induction false} SignalFile(st: State, t: Tid)
    requires InPhase(st, t, ExitSignal)
    ensures var p := st.threads[t].p; var y := st.sync[p];
      FileOk(y.(waitset := Signal(y.waitset)), st.threads[t := st.threads[t].(ph := ExitUnlock)], p)
  {
    var pc := st.threads[t];
    SendSignal(st.sync[pc.p], st.threads, t, pc.(ph := ExitUnlock), pc.p, VisitRole(pc));
  }

  lemma {:induction false} ExitSignalSync(st: State, t: Tid)
    requires InPhase(st, t, ExitSignal) && VisitsFile(st, t)
    ensures SyncInv(VisitStep(st, t, st.threads[t]))
  {
    var pc := st.threads[t];
    var y := st.sync[pc.p];
    SignalFile(st, t);
    OneFileKeeps(st, VisitStep(st, t, pc), t, pc.(ph := ExitUnlock), y.(waitset := Signal(y.waitset)));
  }

  lemma {:induction false} SleepSync(st: State, t: Tid, woken: bool)
    requires InPhase(st, t, Check(woken)) && VisitsFile(st, t)
    requires Blocked(st.threads[t].mode, st.sync[st.threads[t].p])
    ensures SyncInv(CheckStep(st, t, st.threads[t]))
  {
    var pc := st.threads[t];
    var st2 := CheckStep(st, t, pc);
    var pc2 := pc.(ph := Asleep);
    Sleep(st.sync[pc.p], st.threads, t, pc2, pc.p, VisitRole(pc));
    OwnerKept(st, st2, t, pc2);
    VisitKeeps(st, st2, t, pc2);
  }

  lemma {:induction false} EnterFile(st: State, t: Tid, woken: bool)
    requires InPhase(st, t, Check(woken)) && VisitsFile(st, t)
    requires !Blocked(st.threads[t].mode, st.sync[st.threads[t].p]) && st.threads[t].mode != Victim
    ensures var p := st.threads[t].p; var st2 := CheckStep(st, t, st.threads[t]);
      FileOk(st2.sync[p], st2.threads, p)
  {
    var pc := st.threads[t];
    var pc2 := pc.(ph := RelOrd);
    var y := st.sync[pc.p];
    if pc.mode == Reader { EnterAsReader(y, st.threads, t, pc2, pc.p, VisitRole(pc)); }
    else if pc.mode == Probe { PassProbe(y, st.threads, t, pc2, pc.p, VisitRole(pc)); }
    else { EnterAsWriter(y, st.threads, t, pc2, pc.p, VisitRole(pc)); }
  }

  lemma {:induction false} EnterStep(st: State, t: Tid, woken: bool)
    requires InPhase(st, t, Check(woken)) && VisitsFile(st, t)
    requires !Blocked(st.threads[t].mode, st.sync[st.threads[t].p]) && st.threads[t].mode != Victim
    ensures var pc := st.threads[t]; var st2 := CheckStep(st, t, pc);
      && st2.threads == st.threads[t := pc.(ph := RelOrd)] && st2.overall == st.overall
      && st2.sync == st.sync[pc.p := st2.sync[pc.p]]
  {
  }

  lemma {:induction false} EnterSync(st: State, t: Tid, woken: bool)
    requires InPhase(st, t, Check(woken)) && VisitsFile(st, t)
    requires !Blocked(st.threads[t].mode, st.sync[st.threads[t].p]) && st.threads[t].mode != Victim
    ensures SyncInv(CheckStep(st, t, st.threads[t]))
  {
    var pc := st.threads[t];
    var st2 := CheckStep(st, t, pc);
    var pc2 := pc.(ph := RelOrd);
    EnterStep(st, t, woken);
    EnterFile(st, t, woken);
    OwnerKept(st, st2, t, pc2);
    VisitKeeps(st, st2, t, pc2);
  }

  /** The thread u plays no part at p. */
  predicate NoPart(threads: seq<PC>, u: Tid, p: Path) {
    u < |threads| ==> (threads[u].Visit? ==> threads[u].p != p) && RoleOf(threads[u], p) == NOROLE
  }

  lemma {:induction false} OwnerAlone(st: State, t: Tid, p: Path, u: Tid)
    requires SyncInv(st) && t < |st.threads| && Owns(st.threads[t]) && u != t && p in st.sync
    requires var y := st.sync[p];
      y.readers == {} && y.writer.None? && (y.ord.None? || y.ord == Some(t)) && (y.mutex.None? || y.mutex == Some(t))
    ensures NoPart(st.threads, u, p)
  {
    assert FileOk(st.sync[p], st.threads, p);
    assert RoleOk(st.sync[p], At(st.threads, u, p), u);
    assert st.overall == Some(t) <==> t < |st.threads| && Owns(st.threads[t]);
    assert st.overall == Some(u) <==> u < |st.threads| && Owns(st.threads[u]);
    if u < |st.threads| { assert KindOk(st.threads[u]); }
  }

  /** When an eviction frees a file, nobody else plays any part in it. */
  lemma {:induction false} VictimAlone(st: State, t: Tid, woken: bool)
    requires InPhase(st, t, Check(woken)) && !Blocked(st.threads[t].mode, st.sync[st.threads[t].p])
    requires st.threads[t].mode == Victim
    ensures forall u: Tid :: u != t ==> NoPart(st.threads, u, st.threads[t].p)
  {
    var y := st.sync[st.threads[t].p];
    assert FileOk(y, st.threads, st.threads[t].p);
    assert RoleOk(y, At(st.threads, t, st.threads[t].p), t);
    forall u: Tid | u != t ensures NoPart(st.threads, u, st.threads[t].p) { OwnerAlone(st, t, st.threads[t].p, u); }
  }

  lemma {:induction false} PlacesWithout(st: State, st2: State, t: Tid, pc2: PC, p: Path)
    requires PlacesOk(st) && t < |st.threads| && st2.threads == st.threads[t := pc2]
    requires st2.sync == st.sync - {p} && PlaceOk(pc2, st2.sync)
    requires forall u: Tid :: u != t ==> NoPart(st.threads, u, p)
    ensures PlacesOk(st2)
  {
    forall u: Tid | u < |st2.threads| ensures PlaceOk(st2.threads[u], st2.sync) {
      if u != t { assert PlaceOk(st.threads[u], st.sync) && NoPart(st.threads, u, p); }
    }
  }

  lemma {:induction false} VictimSync(st: State, t: Tid, woken: bool)
    requires InPhase(st, t, Check(woken)) && VisitsFile(st, t)
    requires !Blocked(st.threads[t].mode, st.sync[st.threads[t].p]) && st.threads[t].mode == Victim
    requires st.threads[t].k.AppendVictim? ==> st.threads[t].k.q != st.threads[t].p
    ensures SyncInv(CheckStep(st, t, st.threads[t]))
  {
    var pc := st.threads[t];
    var st2 := CheckStep(st, t, pc);
    OwnerKept(st, st2, t, st2.threads[t]);
    VictimAlone(st, t, woken);
    PlacesWithout(st, st2, t, st2.threads[t], pc.p);
    OtherFiles(st, st2, t, st2.threads[t]);
  }

  function AfterEntry(pc: PC): PC
    requires pc.Visit?
  {
    if pc.mode == Probe && pc.k.RemoveAt? then Holding(pc.i, RemoveNow(pc.p, pc.k.c)) else pc.(ph := Body)
  }

  lemma {:induction false} RelMutexRole(pc: PC)
    requires pc.Visit? && pc.ph == RelMutex && KindOk(pc)
    ensures var r := VisitRole(pc); var q := RoleOf(AfterEntry(pc), pc.p);
      && RoleOf(pc, pc.p) == r && r.mutex && !r.signals && !r.sleeps && !r.woken
      && q == r.(mutex := false, past := q.past, gone := q.gone, reader := q.reader)
      && (q.past ==> r.past) && (q.gone ==> r.clear)
  {
  }

  lemma {:induction false} RelMutexFile(st: State, t: Tid)
    requires InPhase(st, t, RelMutex) && VisitsFile(st, t)
    ensures var p := st.threads[t].p; var st2 := VisitStep(st, t, st.threads[t]);
      FileOk(st2.sync[p], st2.threads, p)
  {
    var pc := st.threads[t];
    assert FileOk(st.sync[pc.p], st.threads, pc.p);
    RelMutexRole(pc);
    DropMutex(st.sync[pc.p], st.threads, t, AfterEntry(pc), pc.p, VisitRole(pc));
  }

  lemma {:induction false} RelMutexSync(st: State, t: Tid)
    requires InPhase(st, t, RelMutex) && VisitsFile(st, t)
    ensures SyncInv(VisitStep(st, t, st.threads[t]))
  {
    var st2 := VisitStep(st, t, st.threads[t]);
    var pc2 := st2.threads[t];
    RelMutexFile(st, t);
    OwnerKept(st, st2, t, pc2);
    PlacesKept(st, st2, t, pc2);
    OtherFiles(st, st2, t, pc2);
  }

  predicate VisitedFrom(pc: PC, pc2: PC)
    requires pc.Visit?
  {
    pc2 == if pc.own then Holding(pc.i, pc.k) else Idle
  }

  lemma {:induction false} UnlockRole(pc: PC, pc2: PC)
    requires pc.Visit? && pc.ph == ExitUnlock && KindOk(pc) && VisitedFrom(pc, pc2)
    ensures var r := VisitRole(pc); var q := RoleOf(pc2, pc.p);
      && RoleOf(pc, pc.p) == r && r.mutex && !r.signals && !r.sleeps && !r.woken
      && q == r.(mutex := false, past := q.past, gone := q.gone, reader := q.reader)
      && (q.past ==> r.past) && (q.gone ==> r.clear)
  {
  }

  lemma {:induction false} UnlockFile(st: State, t: Tid, pc2: PC)
    requires InPhase(st, t, ExitUnlock) && VisitedFrom(st.threads[t], pc2)
    ensures var p := st.threads[t].p; FileOk(st.sync[p].(mutex := None), st.threads[t := pc2], p)
  {
    var pc := st.threads[t];
    UnlockRole(pc, pc2);
    assert FileOk(st.sync[pc.p], st.threads, pc.p);
    DropMutex(st.sync[pc.p], st.threads, t, pc2, pc.p, VisitRole(pc));
  }

  /** The end of a visit: nothing is left of the thread's role at the file. */
  lemma {:induction false} VisitEnds(st: State, st2: State, t: Tid, pc2: PC)
    requires InPhase(st, t, ExitUnlock) && VisitedFrom(st.threads[t], pc2)
    requires st2.threads == st.threads[t := pc2] && st2.overall == st.overall
    requires var p := st.threads[t].p; st2.sync == st.sync[p := st.sync[p].(mutex := None)]
    ensures SyncInv(st2)
  {
    UnlockFile(st, t, pc2);
    OwnerKept(st, st2, t, pc2);
    PlacesKept(st, st2, t, pc2);
    OtherFiles(st, st2, t, pc2);
  }

  lemma {:induction false} ExitUnlockSync(st: State, t: Tid)
    requires InPhase(st, t, ExitUnlock) && VisitsFile(st, t)
    ensures SyncInv(VisitStep(st, t, st.threads[t]))
  {
    var st2 := VisitStep(st, t, st.threads[t]);
    VisitEnds(st, st2, t, st2.threads[t]);
  }

  /** The body of a visit changes no synchronisation variable. */
  lemma {:induction false} BodyEnds(st: State, st2: State, t: Tid, pc2: PC)
    requires InPhase(st, t, Body)
    requires st2.threads == st.threads[t := pc2] && st2.overall == st.overall && st2.sync == st.sync
    requires KindOk(pc2) && Owns(pc2) == st.threads[t].own && PlaceOk(pc2, st.sync)
    requires var pc := st.threads[t];
      || (pc2.Visit? && pc2 == pc.(k := pc2.k, ph := pc2.ph) && (pc2.ph == ExitLock || pc2.ph == LeaveLate)
        && !pc2.k.AppendVictim?)
      || (pc2.Holding? && pc2.k.AppendEvict? && pc2.k.q == pc.p && pc.mode == Writer)
    ensures SyncInv(st2)
  {
    var pc := st.threads[t];
    Relax(st.sync[pc.p], st.threads, t, pc2, pc.p, VisitRole(pc));
    OwnerKept(st, st2, t, pc2);
    PlacesKept(st, st2, t, pc2);
    OtherFiles(st, st2, t, pc2);
  }

  lemma {:induction false} BodySync(st: State, t: Tid)
    requires InPhase(st, t, Body) && VisitsFile(st, t)
    ensures SyncInv(BodyStep(st, t, st.threads[t]))
  {
    var st2 := BodyStep(st, t, st.threads[t]);
    BodyEnds(st, st2, t, st2.threads[t]);
  }

  // ---------- code between visits ----------

  ghost predicate Holds(st: State, t: Tid) {
    SyncInv(st) && t < |st.threads| && st.threads[t].Holding? && PlaceOk(st.threads[t], st.sync)
  }

  /** The owner of the overall mutex goes on without touching a synchronisation variable. */
  lemma {:induction false} HoldGoesOn(st: State, st2: State, t: Tid, pc2: PC)
    requires Holds(st, t) && st2.threads == st.threads[t := pc2] && st2.overall == st.overall && st2.sync == st.sync
    requires Owns(pc2) && KindOk(pc2) && PlaceOk(pc2, st.sync)
    requires forall p :: p in st.sync ==>
      RoleOf(pc2, p) == RoleOf(st.threads[t], p) || FileOk(st.sync[p], st2.threads, p)
    ensures SyncInv(st2)
  {
    OwnerKept(st, st2, t, pc2);
    PlacesKept(st, st2, t, pc2);
    OtherFiles(st, st2, t, pc2);
  }

  /** It starts a visit, at a file where it plays no part yet. */
  lemma {:induction false} VisitBegins(st: State, st2: State, t: Tid, pc2: PC)
    requires Holds(st, t) && st2.threads == st.threads[t := pc2] && st2.overall == st.overall && st2.sync == st.sync
    requires pc2.Visit? && pc2.own && pc2.ph == WantOrd && KindOk(pc2) && pc2.p in st.sync
    requires var k := st.threads[t].k;
      if k.AppendEvict? then pc2.k.AppendVictim? && pc2.k.q == k.q && pc2.p != k.q
      else !k.RemoveNow? && !pc2.k.AppendVictim?
    ensures SyncInv(st2)
  {
    BeginFile(st, t, pc2);
    HoldGoesOn(st, st2, t, pc2);
  }

  lemma {:induction false} BeginFile(st: State, t: Tid, pc2: PC)
    requires Holds(st, t)
    requires pc2.Visit? && pc2.own && pc2.ph == WantOrd && pc2.p in st.sync && RoleOf(st.threads[t], pc2.p) == NOROLE
    ensures FileOk(st.sync[pc2.p], st.threads[t := pc2], pc2.p)
  {
    Relax(st.sync[pc2.p], st.threads, t, pc2, pc2.p, NOROLE);
  }

  /** It has its answer, and nothing else. */
  lemma {:induction false} HoldAnswers(st: State, st2: State, t: Tid, pc2: PC)
    requires Holds(st, t) && st2.threads == st.threads[t := pc2] && st2.overall == st.overall && st2.sync == st.sync
    requires pc2.Holding? && !pc2.k.AppendEvict? && !pc2.k.RemoveNow?
    requires !st.threads[t].k.AppendEvict?
    ensures SyncInv(st2)
  {
    var k := st.threads[t].k;
    if k.RemoveNow? {
      Relax(st.sync[k.q], st.threads, t, pc2, k.q, NOROLE.(past := true, clear := true, gone := true));
    }
    HoldGoesOn(st, st2, t, pc2);
  }

  ghost predicate HoldsFor(st: State, t: Tid, i: nat, k: Cont) {
    Holds(st, t) && st.threads[t] == Holding(i, k) && CanHold(st.s, k) && st.sync.Keys == st.s.tab.Keys
  }

  lemma {:induction false} TouchSync(st: State, t: Tid, i: nat, op: Op, p: Path, mode: Mode, e: Effect)
    requires HoldsFor(st, t, i, Start(op)) && mode == (if e.ReadIt? then Reader else Writer)
    ensures SyncInv(TouchAndVisit(st, t, i, p, mode, e))
  {
    var st2 := TouchAndVisit(st, t, i, p, mode, e);
    if p in st.s.tab {
      VisitBegins(st, st2, t, st2.threads[t]);
    } else {
      HoldAnswers(st, st2, t, st2.threads[t]);
    }
  }

  lemma {:induction false} StartOpenSync(st: State, t: Tid, i: nat, p: Path, flags: int, c: Client)
    requires HoldsFor(st, t, i, Start(Open(p, flags, c)))
    ensures SyncInv(StartStep(st, t, i, Open(p, flags, c)))
  {
    var st2 := StartStep(st, t, i, Open(p, flags, c));
    if p in st.s.tab && !HasCreate(flags) {
      TouchSync(st, t, i, Open(p, flags, c), p, Writer, OpenIt(c, HasLock(flags), true, None));
    } else if p !in st.s.tab && HasCreate(flags) && st.s.num == st.s.maxFiles && Pick(st.s, None).Some? {
      VisitBegins(st, st2, t, st2.threads[t]);
    } else {
      HoldAnswers(st, st2, t, st2.threads[t]);
    }
  }

  lemma {:induction false} StartSync(st: State, t: Tid, i: nat, op: Op)
    requires HoldsFor(st, t, i, Start(op))
    ensures SyncInv(StartStep(st, t, i, op))
  {
    var st2 := StartStep(st, t, i, op);
    match op
    case Open(p, flags, c) => StartOpenSync(st, t, i, p, flags, c);
    case Read(p, c) => TouchSync(st, t, i, op, p, Reader, ReadIt(c));
    case Lock(p, c) => TouchSync(st, t, i, op, p, Writer, LockIt(c));
    case Unlock(p, c) => TouchSync(st, t, i, op, p, Writer, UnlockIt(c));
    case Close(p, c) => TouchSync(st, t, i, op, p, Writer, CloseIt(c));
    case ReadN(_, _) => HoldAnswers(st, st2, t, st2.threads[t]);
    case EvictClient(_) => HoldAnswers(st, st2, t, st2.threads[t]);
    case Append(p, content, _, _) =>
      if |content| < st.s.maxSize && p in st.s.tab { VisitBegins(st, st2, t, st2.threads[t]); }
      else { HoldAnswers(st, st2, t, st2.threads[t]); }
    case Remove(p, _) =>
      if p in st.s.tab { VisitBegins(st, st2, t, st2.threads[t]); } else { HoldAnswers(st, st2, t, st2.threads[t]); }
  }

  lemma {:induction false} FreshFile(threads: seq<PC>, p: Path)
    requires forall u: Tid :: u < |threads| ==> RoleOf(threads[u], p) == NOROLE.(reader := RoleOf(threads[u], p).reader)
    ensures FileOk(FRESH, threads, p)
  {
  }

  lemma {:induction false} CreateSync(st: State, t: Tid, i: nat, q: Path, c: Client, lock: bool,
      evicted: Option<ResultFile>)
    requires HoldsFor(st, t, i, OpenCreate(q, c, lock, evicted))
    ensures SyncInv(HoldStep(st, t, i, OpenCreate(q, c, lock, evicted)))
  {
    var st2 := HoldStep(st, t, i, OpenCreate(q, c, lock, evicted));
    var pc2 := st2.threads[t];
    OwnerKept(st, st2, t, pc2);
    PlacesKept(st, st2, t, pc2);
    forall u: Tid | u < |st2.threads| ensures RoleOf(st2.threads[u], q) ==
      NOROLE.(reader := RoleOf(st2.threads[u], q).reader) {
      if u != t { assert PlaceOk(st.threads[u], st.sync); }
    }
    FreshFile(st2.threads, q);
    OtherFiles(st, st2, t, pc2);
  }

  lemma {:induction false} AppendPicks(st: State, t: Tid, i: nat, q: Path, content: string, acc: seq<ResultFile>)
    requires HoldsFor(st, t, i, AppendEvict(q, content, acc))
    requires NeedsRoom(st.s, content) && Pick(st.s, Some(q)).Some?
    ensures SyncInv(HoldStep(st, t, i, AppendEvict(q, content, acc)))
  {
    var st2 := HoldStep(st, t, i, AppendEvict(q, content, acc));
    VisitBegins(st, st2, t, st2.threads[t]);
  }

  lemma {:induction false} WriteStep(st: State, t: Tid, i: nat, q: Path, content: string, acc: seq<ResultFile>)
    requires HoldsFor(st, t, i, AppendEvict(q, content, acc))
    requires !(NeedsRoom(st.s, content) && Pick(st.s, Some(q)).Some?)
    ensures var st2 := HoldStep(st, t, i, AppendEvict(q, content, acc)); var pc2 := st2.threads[t];
      && st2.threads == st.threads[t := pc2] && st2.overall == st.overall && st2.sync == st.sync
      && pc2.Visit? && pc2.i == i && pc2.own && pc2.p == q && pc2.mode == Writer && pc2.k.Answer? && pc2.ph == LeaveLate
  {
  }

  lemma {:induction false} AppendWrites(st: State, t: Tid, i: nat, q: Path, content: string, acc: seq<ResultFile>)
    requires HoldsFor(st, t, i, AppendEvict(q, content, acc))
    requires !(NeedsRoom(st.s, content) && Pick(st.s, Some(q)).Some?)
    ensures SyncInv(HoldStep(st, t, i, AppendEvict(q, content, acc)))
  {
    WriteStep(st, t, i, q, content, acc);
    var st2 := HoldStep(st, t, i, AppendEvict(q, content, acc));
    var pc2 := st2.threads[t];
    assert q in st.sync && FileOk(st.sync[q], st.threads, q);
    Relax(st.sync[q], st.threads, t, pc2, q, WRITING);
    HoldGoesOn(st, st2, t, pc2);
  }

  lemma {:induction false} AppendEvictSync(st: State, t: Tid, i: nat, q: Path, content: string, acc: seq<ResultFile>)
    requires HoldsFor(st, t, i, AppendEvict(q, content, acc))
    ensures SyncInv(HoldStep(st, t, i, AppendEvict(q, content, acc)))
  {
    if NeedsRoom(st.s, content) && Pick(st.s, Some(q)).Some? {
      AppendPicks(st, t, i, q, content, acc);
    } else {
      AppendWrites(st, t, i, q, content, acc);
    }
  }

  lemma {:induction false} RemoveSync(st: State, t: Tid, i: nat, q: Path, c: Client)
    requires HoldsFor(st, t, i, RemoveNow(q, c))
    ensures SyncInv(HoldStep(st, t, i, RemoveNow(q, c)))
  {
    var st2 := HoldStep(st, t, i, RemoveNow(q, c));
    var pc2 := st2.threads[t];
    if RemoveInside(st.s, q, c).1.Removed? {
      RemoveAlone(st, t, i, q, c);
      OwnerKept(st, st2, t, pc2);
      PlacesWithout(st, st2, t, pc2, q);
      OtherFiles(st, st2, t, pc2);
    } else {
      HoldAnswers(st, st2, t, pc2);
    }
  }

  /** When a remove frees a file, nobody else plays any part in it. */
  lemma {:induction false} RemoveAlone(st: State, t: Tid, i: nat, q: Path, c: Client)
    requires Holds(st, t) && st.threads[t] == Holding(i, RemoveNow(q, c))
    ensures forall u: Tid :: u != t ==> NoPart(st.threads, u, q)
  {
    var y := st.sync[q];
    assert FileOk(y, st.threads, q);
    assert RoleOk(y, At(st.threads, t, q), t);
    forall u: Tid | u != t ensures NoPart(st.threads, u, q) { OwnerAlone(st, t, q, u); }
  }

  lemma {:induction false} AnswerSync(st: State, t: Tid, i: nat, r: Reply)
    requires HoldsFor(st, t, i, Answer(r))
    ensures SyncInv(HoldStep(st, t, i, Answer(r)))
  {
    var st2 := HoldStep(st, t, i, Answer(r));
    OwnerLeaves(st, st2, t, Idle);
    PlacesKept(st, st2, t, Idle);
    OtherFiles(st, st2, t, Idle);
  }

  lemma {:induction false} HoldSync(st: State, t: Tid, i: nat, k: Cont)
    requires HoldsFor(st, t, i, k)
    ensures SyncInv(HoldStep(st, t, i, k))
  {
    var st2 := HoldStep(st, t, i, k);
    match k
    case Start(op) => StartSync(st, t, i, op);
    case OpenCreate(q, c, lock, evicted) => CreateSync(st, t, i, q, c, lock, evicted);
    case AppendEvict(q, content, acc) => AppendEvictSync(st, t, i, q, content, acc);
    case ReadNext(rest, counter, c, read) =>
      if rest == [] || counter <= 0 { HoldAnswers(st, st2, t, st2.threads[t]); }
      else { assert rest[0] in st.sync.Keys; VisitBegins(st, st2, t, st2.threads[t]); }
    case DepartNext(rest, c, gained) =>
      if rest == [] { HoldAnswers(st, st2, t, st2.threads[t]); }
      else { assert rest[0] in st.sync.Keys; VisitBegins(st, st2, t, st2.threads[t]); }
    case RemoveNow(q, c) => RemoveSync(st, t, i, q, c);
    case Answer(r) => AnswerSync(st, t, i, r);
  }

  // ---------- the list and the index ----------

  predicate VictimAt(pc: PC, p: Path) { pc.Visit? && pc.mode == Victim && pc.p == p }

  ghost predicate VictimSomewhere(threads: seq<PC>, p: Path) {
    exists t: Tid :: t < |threads| && VictimAt(threads[t], p)
  }

  predicate IndexOk(pc: PC, n: nat) {
    && (pc.WantOverall? ==> ValidArgs(pc.op))
    && (pc.Holding? || pc.Visit? ==> pc.i < n)
  }

  /** The part of the invariant about the list and the index: every indexed file is listed, but
      for the one that is being evicted, has its synchronisation variables, and every thread finds
      the files its code goes on to. */
  ghost predicate DataInv(st: State) {
    && Shape(st.s)
    && st.sync.Keys == st.s.tab.Keys
    && (forall p :: p in st.s.tab ==> p in st.s.order || VictimSomewhere(st.threads, p))
    && forall t: Tid :: t < |st.threads| ==> Finding(st.threads[t], st.s) && IndexOk(st.threads[t], |st.hist|)
  }

  /** One equation, so that the verifier does not take it apart at every use. */
  ghost predicate Inv(st: State) {
    (SyncInv(st) && DataInv(st)) == true
  }

  /** What the invariant says about one thread. */
  lemma {:induction false} ThreadOk(st: State, t: Tid)
    requires Inv(st) && t < |st.threads|
    ensures KindOk(st.threads[t]) && PlaceOk(st.threads[t], st.sync)
    ensures Finding(st.threads[t], st.s) && IndexOk(st.threads[t], |st.hist|)
  {
  }

  lemma {:induction false} VisitedExists(st: State, t: Tid)
    requires Inv(st) && t < |st.threads| && st.threads[t].Visit?
    ensures st.threads[t].p in st.s.tab && st.threads[t].p in st.sync
  {
  }

  lemma {:induction false} SameFinding(pc: PC, s: Store, s2: Store)
    requires Finding(pc, s) && s2.order == s.order && s2.tab.Keys == s.tab.Keys && Shape(s2)
    ensures Finding(pc, s2)
  {
  }

  /** A step that keeps the list and the set of files. */
  lemma {:induction false} DataKept(st: State, st2: State, t: Tid, pc2: PC)
    requires DataInv(st) && t < |st.threads| && st2.threads == st.threads[t := pc2]
    requires |st2.hist| >= |st.hist| && IndexOk(pc2, |st2.hist|)
    requires st2.s.order == st.s.order && st2.s.tab.Keys == st.s.tab.Keys && st2.sync.Keys == st.sync.Keys
    requires Finding(pc2, st2.s)
    requires forall p :: VictimAt(st.threads[t], p) ==> VictimAt(pc2, p)
    ensures DataInv(st2)
  {
    forall u: Tid | u < |st2.threads| ensures Finding(st2.threads[u], st2.s) && IndexOk(st2.threads[u], |st2.hist|) {
      if u != t { SameFinding(st.threads[u], st.s, st2.s); }
    }
    forall p | p in st2.s.tab ensures p in st2.s.order || VictimSomewhere(st2.threads, p) {
      if p !in st.s.order {
        var u: Tid :| u < |st.threads| && VictimAt(st.threads[u], p);
        assert VictimAt(st2.threads[u], p);
      }
    }
  }

  /** A step of the owner of the overall mutex that changes the list or the set of files. */
  lemma {:induction false} DataChanged(st: State, st2: State, t: Tid, pc2: PC)
    requires Inv(st) && t < |st.threads| && st2.threads == st.threads[t := pc2] && Owns(st.threads[t])
    requires st2.hist == st.hist && IndexOk(pc2, |st2.hist|)
    requires Shape(st2.s) && st2.sync.Keys == st2.s.tab.Keys && Finding(pc2, st2.s)
    requires forall u: Tid :: u < |st.threads| && u != t && st.threads[u].Visit? ==> st.threads[u].p in st2.s.tab
    requires forall p :: p in st2.s.tab ==> p in st2.s.order || VictimAt(pc2, p)
    ensures DataInv(st2)
  {
    forall u: Tid | u < |st2.threads| ensures Finding(st2.threads[u], st2.s) && IndexOk(st2.threads[u], |st2.hist|) {
      if u != t { OthersFind(st, st2, t, u); }
    }
    forall p | p in st2.s.tab ensures p in st2.s.order || VictimSomewhere(st2.threads, p) {
      if p !in st2.s.order { assert VictimAt(st2.threads[t], p); }
    }
  }

  /** The others hold no overall mutex, so they only need the file they visit. */
  lemma {:induction false} OthersFind(st: State, st2: State, t: Tid, u: Tid)
    requires Inv(st) && t < |st.threads| && u < |st.threads| && u != t && Owns(st.threads[t])
    requires Shape(st2.s) && (st.threads[u].Visit? ==> st.threads[u].p in st2.s.tab)
    ensures Finding(st.threads[u], st2.s)
  {
    assert st.overall == Some(t) <==> t < |st.threads| && Owns(st.threads[t]);
    assert st.overall == Some(u) <==> u < |st.threads| && Owns(st.threads[u]);
    assert KindOk(st.threads[u]) && Finding(st.threads[u], st.s);
  }

  /** Between visits the owner of the overall mutex finds every indexed file in the list. */
  lemma {:induction false} HolderSeesAll(st: State, t: Tid)
    requires Inv(st) && t < |st.threads| && st.threads[t].Holding?
    ensures AllListed(st.s)
  {
    forall u: Tid, p ensures u < |st.threads| ==> !VictimAt(st.threads[u], p) {
      assert st.overall == Some(t) <==> t < |st.threads| && Owns(st.threads[t]);
      assert st.overall == Some(u) <==> u < |st.threads| && Owns(st.threads[u]);
      assert u < |st.threads| ==> KindOk(st.threads[u]);
    }
  }

  // ---------- every step keeps the invariant ----------

  ghost predicate Visits(st: State, t: Tid) {
    (Inv(st) && Enabled(st, t) && st.threads[t].Visit?) == true
  }

  lemma {:induction false} CheckPlain(st: State, t: Tid, pc: PC)
    requires t < |st.threads| && pc == st.threads[t] && pc.Visit? && pc.p in st.sync && pc.ph.Check?
    requires KindOk(pc) && Finding(pc, st.s) && (pc.mode == Victim ==> Blocked(pc.mode, st.sync[pc.p]))
    ensures PlainStep(st, CheckStep(st, t, pc), t, pc, CheckStep(st, t, pc).threads[t])
  {
  }

  lemma {:induction false} CheckData(st: State, t: Tid, woken: bool)
    requires Visits(st, t) && st.threads[t].ph == Check(woken)
    ensures DataInv(CheckStep(st, t, st.threads[t]))
  {
    var pc := st.threads[t];
    if pc.mode == Victim && !Blocked(pc.mode, st.sync[pc.p]) {
      VictimData(st, t, woken);
    } else {
      ThreadOk(st, t);
      CheckPlain(st, t, pc);
      PlainData(st, CheckStep(st, t, pc), t, pc, CheckStep(st, t, pc).threads[t]);
    }
  }

  lemma {:induction false} VictimOthersStay(st: State, t: Tid, woken: bool, u: Tid)
    requires Visits(st, t) && st.threads[t].ph == Check(woken)
    requires st.threads[t].mode == Victim && !Blocked(Victim, st.sync[st.threads[t].p])
    requires u < |st.threads| && u != t && st.threads[u].Visit?
    ensures st.threads[u].p in st.s.tab && st.threads[u].p != st.threads[t].p
  {
    VictimAlone(st, t, woken);
    VisitedExists(st, u);
    assert NoPart(st.threads, u, st.threads[t].p);
  }

  lemma {:induction false} VictimStep(st: State, t: Tid, pc: PC)
    requires t < |st.threads| && pc.Visit? && pc.p in st.sync && pc.p in st.s.tab && Shape(st.s)
    requires pc.mode == Victim && pc.p !in st.s.order && !Blocked(Victim, st.sync[pc.p])
    ensures var st2 := CheckStep(st, t, pc);
      && st2.threads == st.threads[t := st2.threads[t]] && st2.threads[t].Holding? && st2.threads[t].i == pc.i
      && st2.hist == st.hist && st2.sync == st.sync - {pc.p} && st2.s == Drop(st.s, pc.p).0
  {
  }

  lemma {:induction false} VictimFinds(st: State, t: Tid, pc: PC)
    requires t < |st.threads| && pc.Visit? && pc.p in st.sync && pc.p in st.s.tab && Shape(st.s)
    requires pc.mode == Victim && pc.p !in st.s.order && !Blocked(Victim, st.sync[pc.p])
    requires FitsMode(pc.k, pc.mode) && CanVisit(st.s, pc.p, pc.k)
    ensures var st2 := CheckStep(st, t, pc); Finding(st2.threads[t], st2.s)
  {
  }

  lemma {:induction false} VictimData(st: State, t: Tid, woken: bool)
    requires Visits(st, t) && st.threads[t].ph == Check(woken)
    requires st.threads[t].mode == Victim && !Blocked(Victim, st.sync[st.threads[t].p])
    ensures DataInv(CheckStep(st, t, st.threads[t]))
  {
    var pc := st.threads[t];
    var st2 := CheckStep(st, t, pc);
    ThreadOk(st, t);
    VictimStep(st, t, pc);
    VictimFinds(st, t, pc);
    forall u: Tid | u < |st.threads| && u != t && st.threads[u].Visit? ensures st.threads[u].p in st2.s.tab {
      VictimOthersStay(st, t, woken, u);
    }
    forall p | p in st2.s.tab ensures p in st2.s.order {
      OwnVictimOnly(st, t, p);
    }
    DataChanged(st, st2, t, st2.threads[t]);
  }

  /** While the owner of the overall mutex evicts a file, every other indexed file is listed. */
  lemma {:induction false} OwnVictimOnly(st: State, t: Tid, p: Path)
    requires Inv(st) && t < |st.threads| && Owns(st.threads[t]) && p in st.s.tab && !VictimAt(st.threads[t], p)
    ensures p in st.s.order
  {
    forall u: Tid ensures u < |st.threads| ==> !VictimAt(st.threads[u], p) {
      assert st.overall == Some(t) <==> t < |st.threads| && Owns(st.threads[t]);
      assert st.overall == Some(u) <==> u < |st.threads| && Owns(st.threads[u]);
      assert u < |st.threads| ==> KindOk(st.threads[u]);
    }
  }

  lemma {:induction false} FindsLess(s: Store, p: Path, k: Cont, p2: Path, k2: Cont)
    requires Finds(s, p, k) && MustList(p2, k2) <= MustList(p, k) && MustMiss(k2) <= MustMiss(k)
    ensures Finds(s, p2, k2)
  {
  }

  ghost predicate BodyReady(st: State, t: Tid, pc: PC) {
    (t < |st.threads| && pc.Visit? && pc.ph == Body && KindOk(pc) && CanVisit(st.s, pc.p, pc.k)) == true
  }

  lemma {:induction false} ReadBodyFinds(st: State, t: Tid, pc: PC)
    requires BodyReady(st, t, pc) && pc.k.ReadAt?
    ensures var st2 := BodyStep(st, t, pc); Finding(st2.threads[t], st2.s)
  {
    var st2 := BodyStep(st, t, pc);
    var pc2 := st2.threads[t];
    var rf := ResultFile(pc.p, st.s.tab[pc.p].data, []);
    assert PathsOf([rf] + pc.k.read) <= {pc.p} + PathsOf(pc.k.read);
    FindsLess(st.s, pc.p, pc.k, pc.p, pc2.k);
    SameFinding(pc2, st.s, st2.s);
  }

  lemma {:induction false} OtherBodyFinds(st: State, t: Tid, pc: PC)
    requires BodyReady(st, t, pc) && !pc.k.ReadAt?
    ensures var st2 := BodyStep(st, t, pc); Finding(st2.threads[t], st2.s)
  {
    var st2 := BodyStep(st, t, pc);
    var pc2 := st2.threads[t];
    FindsLess(st.s, pc.p, pc.k, pc.p, pc2.k);
    if pc2.Holding? { FindsLess(st.s, pc.p, pc.k, "", pc2.k); }
    SameFinding(pc2, st.s, st2.s);
  }

  lemma {:induction false} BodyFinds(st: State, t: Tid, pc: PC)
    requires BodyReady(st, t, pc)
    ensures var st2 := BodyStep(st, t, pc); Finding(st2.threads[t], st2.s)
  {
    if pc.k.ReadAt? { ReadBodyFinds(st, t, pc); } else { OtherBodyFinds(st, t, pc); }
  }

  lemma {:induction false} BodyFrame(st: State, t: Tid, pc: PC)
    requires BodyReady(st, t, pc)
    ensures var st2 := BodyStep(st, t, pc);
      && st2.threads == st.threads[t := st2.threads[t]] && st2.hist == st.hist && st2.sync == st.sync
      && st2.s.order == st.s.order && st2.s.tab.Keys == st.s.tab.Keys
  {
  }

  lemma {:induction false} BodyKeepsKind(st: State, t: Tid, pc: PC, n: nat)
    requires BodyReady(st, t, pc) && IndexOk(pc, n)
    ensures IndexOk(BodyStep(st, t, pc).threads[t], n) && pc.mode != Victim
  {
  }

  lemma {:induction false} IsBodyReady(st: State, t: Tid)
    requires Visits(st, t) && st.threads[t].ph == Body
    ensures BodyReady(st, t, st.threads[t]) && IndexOk(st.threads[t], |st.hist|)
  {
    ThreadOk(st, t);
  }

  lemma {:induction false} BodyData(st: State, t: Tid)
    requires Visits(st, t) && st.threads[t].ph == Body
    ensures DataInv(BodyStep(st, t, st.threads[t]))
  {
    var pc := st.threads[t];
    IsBodyReady(st, t);
    BodyFinds(st, t, pc);
    BodyFrame(st, t, pc);
    BodyKeepsKind(st, t, pc, |st.hist|);
    var st2 := BodyStep(st, t, pc);
    DataKept(st, st2, t, st2.threads[t]);
  }

  ghost predicate PlainStep(st: State, st2: State, t: Tid, pc: PC, pc2: PC) {
    && t < |st.threads| && pc.Visit?
    && st2.threads == st.threads[t := pc2] && st2.s == st.s && st2.hist == st.hist && st2.sync.Keys == st.sync.Keys
    && (pc2.Visit? ==> pc2 == pc.(ph := pc2.ph, own := pc2.own))
    && (pc2.Holding? ==> pc2.i == pc.i && pc.mode != Victim)
    && (pc2.Idle? ==> pc.mode != Victim)
    && !pc2.WantOverall?
    && Found(pc2, st.s)
  }

  ghost predicate Found(pc: PC, s: Store) { Finding(pc, s) == true }

  /** What all phases but the body and the test of the wait loop have in common. */
  lemma {:induction false} PhasePlain(st: State, t: Tid, pc: PC)
    requires t < |st.threads| && pc == st.threads[t] && pc.Visit? && pc.p in st.sync && pc.ph != Body && !pc.ph.Check?
    requires KindOk(pc) && Finding(pc, st.s)
    ensures PlainStep(st, VisitStep(st, t, pc), t, pc, VisitStep(st, t, pc).threads[t])
  {
    if pc.ph == RelMutex || pc.ph == ExitUnlock { LastPlain(st, t, pc); } else { StayPlain(st, t, pc); }
  }

  lemma {:induction false} RelMutexPlain(st: State, t: Tid, pc: PC)
    requires t < |st.threads| && pc == st.threads[t] && pc.Visit? && pc.p in st.sync && pc.ph == RelMutex
    requires KindOk(pc) && Finding(pc, st.s)
    ensures PlainStep(st, VisitStep(st, t, pc), t, pc, VisitStep(st, t, pc).threads[t])
  {
    if pc.k.RemoveAt? { FindsLess(st.s, pc.p, pc.k, "", RemoveNow(pc.p, pc.k.c)); }
  }

  lemma {:induction false} ExitUnlockPlain(st: State, t: Tid, pc: PC)
    requires t < |st.threads| && pc == st.threads[t] && pc.Visit? && pc.p in st.sync && pc.ph == ExitUnlock
    requires KindOk(pc) && Finding(pc, st.s)
    ensures PlainStep(st, VisitStep(st, t, pc), t, pc, VisitStep(st, t, pc).threads[t])
  {
    FindsLess(st.s, pc.p, pc.k, "", pc.k);
  }

  lemma {:induction false} LastPlain(st: State, t: Tid, pc: PC)
    requires t < |st.threads| && pc == st.threads[t] && pc.Visit? && pc.p in st.sync
      && (pc.ph == RelMutex || pc.ph == ExitUnlock)
    requires KindOk(pc) && Finding(pc, st.s)
    ensures PlainStep(st, VisitStep(st, t, pc), t, pc, VisitStep(st, t, pc).threads[t])
  {
    if pc.ph == RelMutex { RelMutexPlain(st, t, pc); } else { ExitUnlockPlain(st, t, pc); }
  }

  lemma {:induction false} StayPlain(st: State, t: Tid, pc: PC)
    requires t < |st.threads| && pc == st.threads[t] && pc.Visit? && pc.p in st.sync && pc.ph != Body && !pc.ph.Check?
    requires KindOk(pc) && Finding(pc, st.s) && pc.ph != RelMutex && pc.ph != ExitUnlock
    ensures PlainStep(st, VisitStep(st, t, pc), t, pc, VisitStep(st, t, pc).threads[t])
  {
  }

  lemma {:induction false} PlainData(st: State, st2: State, t: Tid, pc: PC, pc2: PC)
    requires DataInv(st) && PlainStep(st, st2, t, pc, pc2) && pc == st.threads[t]
    ensures DataInv(st2)
  {
    assert IndexOk(pc, |st.hist|);
    DataKept(st, st2, t, pc2);
  }

  lemma {:induction false} PhaseData(st: State, t: Tid)
    requires Visits(st, t) && st.threads[t].ph != Body && !st.threads[t].ph.Check?
    ensures DataInv(VisitStep(st, t, st.threads[t]))
  {
    var pc := st.threads[t];
    assert KindOk(pc);
    PhasePlain(st, t, pc);
    PlainData(st, VisitStep(st, t, pc), t, pc, VisitStep(st, t, pc).threads[t]);
  }

  /** The step of a visit, without the cases that do not apply. */
  lemma {:induction false} VisitCases(st: State, t: Tid, pc: PC)
    requires t < |st.threads| && pc.Visit? && pc.p in st.sync && pc.p in st.s.tab
    requires Shape(st.s) && (pc.mode == Victim ==> pc.p !in st.s.order)
    ensures pc.ph == Body ==> VisitStep(st, t, pc) == BodyStep(st, t, pc)
    ensures pc.ph.Check? ==> VisitStep(st, t, pc) == CheckStep(st, t, pc)
  {
  }

  lemma {:induction false} VisitData(st: State, t: Tid)
    requires Visits(st, t)
    ensures DataInv(VisitStep(st, t, st.threads[t]))
  {
    ThreadOk(st, t);
    if st.threads[t].ph == Body {
      VisitCases(st, t, st.threads[t]);
      BodyData(st, t);
    } else if st.threads[t].ph.Check? {
      VisitCases(st, t, st.threads[t]);
      CheckData(st, t, st.threads[t].ph.woken);
    } else {
      PhaseData(st, t);
    }
  }

  lemma {:induction false} VisitSync(st: State, t: Tid)
    requires Visits(st, t)
    ensures SyncInv(VisitStep(st, t, st.threads[t]))
  {
    var pc := st.threads[t];
    assert KindOk(pc) && PlaceOk(pc, st.sync) && Finding(pc, st.s);
    assert InPhase(st, t, pc.ph) && VisitsFile(st, t);
    match pc.ph
    case WantOrd => WantOrdSync(st, t);
    case WantMutex => WantMutexSync(st, t);
    case LeaveEarly => LeaveEarlySync(st, t);
    case Check(woken) =>
      if Blocked(pc.mode, st.sync[pc.p]) { SleepSync(st, t, woken); }
      else if pc.mode == Victim { VictimSync(st, t, woken); }
      else { EnterSync(st, t, woken); }
    case Asleep => AsleepSync(st, t);
    case Reacquire(woken) => ReacquireSync(st, t, woken);
    case RelOrd => RelOrdSync(st, t);
    case RelMutex => RelMutexSync(st, t);
    case Body => BodySync(st, t);
    case LeaveLate => LeaveLateSync(st, t);
    case ExitLock => ExitLockSync(st, t);
    case ExitDec => ExitDecSync(st, t);
    case ExitSignal => ExitSignalSync(st, t);
    case ExitUnlock => ExitUnlockSync(st, t);
  }

  /** The owner of the overall mutex between visits: it sees every file listed. */
  ghost predicate HoldsData(st: State, t: Tid, i: nat, k: Cont) {
    t < |st.threads| && st.threads[t] == Holding(i, k) && CanHold(st.s, k) && AllListed(st.s) && i < |st.hist|
  }

  /** The list may have changed, but nothing else that another thread looks at. */
  ghost predicate Goes(st: State, st2: State, t: Tid, i: nat) {
    && t < |st.threads| && |st2.threads| == |st.threads| && st2.threads == st.threads[t := st2.threads[t]]
    && st2.hist == st.hist && st2.sync == st.sync && Shape(st2.s) && st2.s.tab.Keys == st.s.tab.Keys
    && (st2.threads[t].Holding? || st2.threads[t].Visit?) && st2.threads[t].i == i
  }

  ghost predicate AllButVictim(s: Store, pc: PC) {
    forall p :: p in s.tab ==> p in s.order || VictimAt(pc, p)
  }

  lemma {:induction false} GoesData(st: State, st2: State, t: Tid, i: nat)
    requires Inv(st) && t < |st.threads| && st.threads[t].Holding? && i < |st.hist|
    requires Goes(st, st2, t, i) && AllButVictim(st2.s, st2.threads[t]) && Found(st2.threads[t], st2.s)
    ensures DataInv(st2)
  {
    forall u: Tid | u < |st.threads| && u != t && st.threads[u].Visit? ensures st.threads[u].p in st2.s.tab {
      VisitedExists(st, u);
    }
    DataChanged(st, st2, t, st2.threads[t]);
  }

  lemma {:induction false} FoundPlain(pc: PC, s: Store)
    requires Shape(s)
    requires (pc.Holding? && pc.k.Answer?)
      || (pc.Visit? && (pc.k.Answer? || pc.k.Deliverable?) && pc.p in s.tab && pc.mode != Victim)
    ensures Found(pc, s)
  {
  }

  lemma {:induction false} FoundVisit(pc: PC, s: Store)
    requires pc.Visit? && Finds(s, pc.p, pc.k) && pc.p in s.tab
    requires if pc.mode == Victim || pc.k.OpenVictim? || pc.k.AppendVictim? then pc.p !in s.order else true
    requires pc.k.ReadAt? ==> pc.k.counter > 0
    ensures Found(pc, s)
  {
  }

  lemma {:induction false} TouchGoes(st: State, t: Tid, i: nat, op: Op, p: Path, mode: Mode, e: Effect)
    requires HoldsData(st, t, i, Start(op)) && mode != Victim
    ensures Goes(st, TouchAndVisit(st, t, i, p, mode, e), t, i)
  {
  }

  lemma {:induction false} TouchFinds(st: State, t: Tid, i: nat, op: Op, p: Path, mode: Mode, e: Effect)
    requires HoldsData(st, t, i, Start(op)) && mode != Victim
    ensures var st2 := TouchAndVisit(st, t, i, p, mode, e); AllListed(st2.s) && Found(st2.threads[t], st2.s)
  {
    var st2 := TouchAndVisit(st, t, i, p, mode, e);
    FoundPlain(st2.threads[t], st2.s);
  }

  /** An operation that starts with a visit of one file. */
  predicate StartsWithTouch(s: Store, op: Op) {
    op.Read? || op.Lock? || op.Unlock? || op.Close? || (op.Open? && op.path in s.tab && !HasCreate(op.flags))
  }

  lemma {:induction false} StartTouches(st: State, t: Tid, i: nat, op: Op)
    requires HoldsData(st, t, i, Start(op)) && StartsWithTouch(st.s, op)
    ensures var st2 := StartStep(st, t, i, op);
      Goes(st, st2, t, i) && AllListed(st2.s) && Found(st2.threads[t], st2.s)
  {
    match op
    case Open(p, flags, c) => TouchGoes(st, t, i, op, p, Writer, OpenIt(c, HasLock(flags), true, None));
      TouchFinds(st, t, i, op, p, Writer, OpenIt(c, HasLock(flags), true, None));
    case Read(p, c) => TouchGoes(st, t, i, op, p, Reader, ReadIt(c)); TouchFinds(st, t, i, op, p, Reader, ReadIt(c));
    case Lock(p, c) => TouchGoes(st, t, i, op, p, Writer, LockIt(c)); TouchFinds(st, t, i, op, p, Writer, LockIt(c));
    case Unlock(p, c) => TouchGoes(st, t, i, op, p, Writer, UnlockIt(c));
      TouchFinds(st, t, i, op, p, Writer, UnlockIt(c));
    case Close(p, c) => TouchGoes(st, t, i, op, p, Writer, CloseIt(c)); TouchFinds(st, t, i, op, p, Writer, CloseIt(c));
  }

  lemma {:induction false} OpenGoes(st: State, t: Tid, i: nat, op: Op)
    requires HoldsData(st, t, i, Start(op)) && !StartsWithTouch(st.s, op) && op.Open?
    ensures var st2 := StartStep(st, t, i, op);
      Goes(st, st2, t, i) && AllButVictim(st2.s, st2.threads[t])
  {
  }

  lemma {:induction false} StartGoes(st: State, t: Tid, i: nat, op: Op)
    requires HoldsData(st, t, i, Start(op)) && !StartsWithTouch(st.s, op)
    ensures var st2 := StartStep(st, t, i, op);
      Goes(st, st2, t, i) && AllButVictim(st2.s, st2.threads[t])
  {
    if op.Open? { OpenGoes(st, t, i, op); }
  }

  lemma {:induction false} OpenFinds(st: State, t: Tid, i: nat, p: Path, flags: int, c: Client)
    requires HoldsData(st, t, i, Start(Op.Open(p, flags, c))) && !StartsWithTouch(st.s, Op.Open(p, flags, c))
    ensures var st2 := StartStep(st, t, i, Op.Open(p, flags, c)); Found(st2.threads[t], st2.s)
  {
    var st2 := StartStep(st, t, i, Op.Open(p, flags, c));
    if st2.threads[t].Visit? {
      FoundVisit(st2.threads[t], st2.s);
    } else if st2.threads[t].k.Answer? {
      FoundPlain(st2.threads[t], st2.s);
    }
  }

  lemma {:induction false} OtherFinds(st: State, t: Tid, i: nat, op: Op)
    requires HoldsData(st, t, i, Start(op)) && !StartsWithTouch(st.s, op) && !op.Open?
    ensures var st2 := StartStep(st, t, i, op); Found(st2.threads[t], st2.s)
  {
    var st2 := StartStep(st, t, i, op);
    if st2.threads[t].Visit? {
      FoundVisit(st2.threads[t], st2.s);
    } else if st2.threads[t].k.Answer? {
      FoundPlain(st2.threads[t], st2.s);
    }
  }

  lemma {:induction false} StartFinds(st: State, t: Tid, i: nat, op: Op)
    requires HoldsData(st, t, i, Start(op)) && !StartsWithTouch(st.s, op)
    ensures var st2 := StartStep(st, t, i, op); Found(st2.threads[t], st2.s)
  {
    if op.Open? { OpenFinds(st, t, i, op.path, op.flags, op.c); } else { OtherFinds(st, t, i, op); }
  }

  predicate InLoop(k: Cont) { k.ReadNext? || k.DepartNext? || k.AppendEvict? }

  lemma {:induction false} ReadNextGoes(st: State, t: Tid, i: nat, k: Cont)
    requires HoldsData(st, t, i, k) && k.ReadNext?
    ensures var st2 := HoldStep(st, t, i, k);
      Goes(st, st2, t, i) && AllListed(st2.s) && Found(st2.threads[t], st2.s)
  {
    var st2 := HoldStep(st, t, i, k);
    forall rf | rf in k.read ensures rf.path in st.s.order { assert rf.path in PathsOf(k.read); }
    MoveAllShape(st.s.order, k.read);
    if k.rest == [] || k.counter <= 0 {
      FoundPlain(st2.threads[t], st2.s);
    } else {
      FindsLess(st.s, "", k, k.rest[0], st2.threads[t].k);
      FoundVisit(st2.threads[t], st2.s);
    }
  }

  lemma {:induction false} DepartNextGoes(st: State, t: Tid, i: nat, k: Cont)
    requires HoldsData(st, t, i, k) && k.DepartNext?
    ensures var st2 := HoldStep(st, t, i, k);
      Goes(st, st2, t, i) && AllListed(st2.s) && Found(st2.threads[t], st2.s)
  {
    var st2 := HoldStep(st, t, i, k);
    if k.rest == [] {
      FoundPlain(st2.threads[t], st2.s);
    } else {
      FindsLess(st.s, "", k, k.rest[0], st2.threads[t].k);
      FoundVisit(st2.threads[t], st2.s);
    }
  }

  lemma {:induction false} AppendEvictGoes(st: State, t: Tid, i: nat, k: Cont)
    requires HoldsData(st, t, i, k) && k.AppendEvict?
    ensures var st2 := HoldStep(st, t, i, k);
      Goes(st, st2, t, i) && AllButVictim(st2.s, st2.threads[t]) && Found(st2.threads[t], st2.s)
  {
    var st2 := HoldStep(st, t, i, k);
    if NeedsRoom(st.s, k.content) && Pick(st.s, Some(k.q)).Some? {
      FoundVisit(st2.threads[t], st2.s);
    } else {
      FoundPlain(st2.threads[t], st2.s);
    }
  }

  lemma {:induction false} CreateGoes(st: State, t: Tid, i: nat, k: Cont)
    requires HoldsData(st, t, i, k) && k.OpenCreate? && st.sync.Keys == st.s.tab.Keys
    ensures var st2 := HoldStep(st, t, i, k);
      && st2.threads == st.threads[t := st2.threads[t]] && st2.hist == st.hist
      && st2.threads[t].Visit? && st2.threads[t].i == i && Found(st2.threads[t], st2.s)
      && AllListed(st2.s) && st2.s.tab.Keys == st.s.tab.Keys + {k.q} == st2.sync.Keys
  {
  }

  lemma {:induction false} CreateData(st: State, t: Tid, i: nat, k: Cont)
    requires Inv(st) && HoldsData(st, t, i, k) && k.OpenCreate?
    ensures DataInv(HoldStep(st, t, i, k))
  {
    CreateGoes(st, t, i, k);
    FilesChange(st, HoldStep(st, t, i, k), t, "");
  }

  /** The step of an owner after which file p is gone, and perhaps another one is new. */
  lemma {:induction false} FilesChange(st: State, st2: State, t: Tid, p: Path)
    requires Inv(st) && t < |st.threads| && |st2.threads| == |st.threads|
      && st2.threads == st.threads[t := st2.threads[t]]
    requires Owns(st.threads[t]) && st2.hist == st.hist && IndexOk(st2.threads[t], |st.hist|)
    requires Found(st2.threads[t], st2.s) && Shape(st2.s) && AllListed(st2.s) && st2.s.tab.Keys == st2.sync.Keys
    requires st2.s.tab.Keys >= st.s.tab.Keys
      || (st2.s.tab.Keys >= st.s.tab.Keys - {p} && forall u: Tid :: u != t ==> NoPart(st.threads, u, p))
    ensures DataInv(st2)
  {
    forall u: Tid | u < |st.threads| && u != t && st.threads[u].Visit? ensures st.threads[u].p in st2.s.tab {
      VisitedExists(st, u);
      assert st2.s.tab.Keys >= st.s.tab.Keys || NoPart(st.threads, u, p);
    }
    DataChanged(st, st2, t, st2.threads[t]);
  }

  lemma {:induction false} RemoveGoes(st: State, t: Tid, i: nat, q: Path, c: Client)
    requires HoldsData(st, t, i, RemoveNow(q, c)) && st.sync.Keys == st.s.tab.Keys
    ensures var st2 := HoldStep(st, t, i, RemoveNow(q, c));
      && st2.threads[t] == Holding(i, Answer(RemoveInside(st.s, q, c).1)) && st2.hist == st.hist
      && st2.threads == st.threads[t := st2.threads[t]]
      && Shape(st2.s) && AllListed(st2.s) && st2.s.tab.Keys >= st.s.tab.Keys - {q} && st2.s.tab.Keys == st2.sync.Keys
  {
    NoDupRemove1(st.s.order, q);
  }

  lemma {:induction false} RemoveData(st: State, t: Tid, i: nat, k: Cont)
    requires Inv(st) && HoldsData(st, t, i, k) && k.RemoveNow?
    ensures DataInv(HoldStep(st, t, i, k))
  {
    ThreadOk(st, t);
    RemoveAlone(st, t, i, k.q, k.c);
    RemoveGoes(st, t, i, k.q, k.c);
    FilesChange(st, HoldStep(st, t, i, k), t, k.q);
  }

  lemma {:induction false} AnswerData(st: State, t: Tid, i: nat, k: Cont)
    requires Inv(st) && HoldsData(st, t, i, k) && k.Answer?
    ensures DataInv(HoldStep(st, t, i, k))
  {
    DataKept(st, HoldStep(st, t, i, k), t, Idle);
  }

  lemma {:induction false} StartData(st: State, t: Tid, i: nat, op: Op)
    requires Inv(st) && HoldsData(st, t, i, Start(op))
    ensures DataInv(StartStep(st, t, i, op))
  {
    var st2 := StartStep(st, t, i, op);
    if StartsWithTouch(st.s, op) {
      StartTouches(st, t, i, op);
    } else {
      StartGoes(st, t, i, op);
      StartFinds(st, t, i, op);
    }
    GoesData(st, st2, t, i);
  }

  lemma {:induction false} LoopData(st: State, t: Tid, i: nat, k: Cont)
    requires Inv(st) && HoldsData(st, t, i, k) && InLoop(k)
    ensures DataInv(HoldStep(st, t, i, k))
  {
    match k {
      case ReadNext(_, _, _, _) => ReadNextGoes(st, t, i, k);
      case DepartNext(_, _, _) => DepartNextGoes(st, t, i, k);
      case AppendEvict(_, _, _) => AppendEvictGoes(st, t, i, k);
    }
    GoesData(st, HoldStep(st, t, i, k), t, i);
  }

  lemma {:induction false} HoldData(st: State, t: Tid, i: nat, k: Cont)
    requires Inv(st) && HoldsData(st, t, i, k)
    ensures DataInv(HoldStep(st, t, i, k))
  {
    match k
    case Start(op) => StartData(st, t, i, op);
    case OpenCreate(_, _, _, _) => CreateData(st, t, i, k);
    case RemoveNow(_, _) => RemoveData(st, t, i, k);
    case Answer(_) => AnswerData(st, t, i, k);
    case ReadNext(_, _, _, _) => LoopData(st, t, i, k);
    case DepartNext(_, _, _) => LoopData(st, t, i, k);
    case AppendEvict(_, _, _) => LoopData(st, t, i, k);
  }

  lemma {:induction false} HoldKeeps(st: State, t: Tid, i: nat, k: Cont)
    requires Inv(st) && Enabled(st, t) && st.threads[t] == Holding(i, k)
    ensures Inv(HoldStep(st, t, i, k))
  {
    assert PlaceOk(st.threads[t], st.sync) && IndexOk(st.threads[t], |st.hist|);
    HolderSeesAll(st, t);
    HoldSync(st, t, i, k);
    HoldData(st, t, i, k);
  }

  lemma {:induction false} AcquireKeeps(st: State, t: Tid, op: Op)
    requires Inv(st) && Enabled(st, t) && st.threads[t] == WantOverall(op)
    ensures Inv(Step(st, t))
  {
    var st2 := Step(st, t);
    var pc2 := Holding(|st.hist|, Start(op));
    assert IndexOk(st.threads[t], |st.hist|);
    forall u: Tid ensures !(u < |st.threads| && Owns(st.threads[u])) {
      assert st.overall == Some(u) <==> u < |st.threads| && Owns(st.threads[u]);
    }
    forall u: Tid, p ensures u < |st.threads| ==> !VictimAt(st.threads[u], p) {
      assert u < |st.threads| ==> KindOk(st.threads[u]);
    }
    PlacesKept(st, st2, t, pc2);
    OtherFiles(st, st2, t, pc2);
    DataKept(st, st2, t, pc2);
  }

  lemma {:induction false} CallKeeps(st: State, t: Tid, op: Op)
    requires Inv(st) && CanCall(st, t, op)
    ensures Inv(Call(st, t, op))
  {
    var st2 := Call(st, t, op);
    OwnerKept(st, st2, t, WantOverall(op));
    PlacesKept(st, st2, t, WantOverall(op));
    OtherFiles(st, st2, t, WantOverall(op));
    DataKept(st, st2, t, WantOverall(op));
  }

  lemma {:induction false} SpuriousSync(st: State, t: Tid)
    requires SyncInv(st) && CanWakeSpuriously(st, t)
    ensures SyncInv(Spurious(st, t))
  {
    var pc := st.threads[t];
    var y := st.sync[pc.p];
    var pc2 := pc.(ph := Reacquire(false));
    assert KindOk(pc) && PlaceOk(pc, st.sync);
    WakeSpuriously(y, st.threads, t, pc2, pc.p, VisitRole(pc));
    OneFileKeeps(st, Spurious(st, t), t, pc2, y.(waitset := y.waitset - {t}));
  }

  lemma {:induction false} SpuriousKeeps(st: State, t: Tid)
    requires Inv(st) && CanWakeSpuriously(st, t)
    ensures Inv(Spurious(st, t))
  {
    SpuriousSync(st, t);
    ThreadOk(st, t);
    PlainData(st, Spurious(st, t), t, st.threads[t], st.threads[t].(ph := Reacquire(false)));
  }

  lemma {:induction false} StepKeeps(st: State, t: Tid)
    requires Inv(st) && Enabled(st, t)
    ensures Inv(Step(st, t))
  {
    match st.threads[t]
    case WantOverall(op) => AcquireKeeps(st, t, op);
    case Holding(i, k) => HoldKeeps(st, t, i, k);
    case Visit(_, _, _, _, _, _) => VisitSync(st, t); VisitData(st, t);
    case Idle =>
  }

  /** Every step of the program keeps the invariant. */
  lemma {:induction false} NextKeeps(st: State, st2: State)
    requires Inv(st) && Next(st, st2)
    ensures Inv(st2)
  {
    if t :| Enabled(st, t) && st2 == Step(st, t) {
      StepKeeps(st, t);
    } else if t, op :| CanCall(st, t, op) && st2 == Call(st, t, op) {
      CallKeeps(st, t, op);
    } else {
      var t :| CanWakeSpuriously(st, t) && st2 == Spurious(st, t);
      SpuriousKeeps(st, t);
    }
  }

  lemma {:induction false} BehaviourNext(sts: seq<State>, maxSize: nat, maxFiles: nat, policy: Policy, i: nat)
    requires Behaviour(sts, maxSize, maxFiles, policy) && 0 < i < |sts|
    ensures Next(sts[i - 1], sts[i])
  {
    assert NextAt(sts, i - 1);
  }

  lemma {:induction false} BehaviourKeeps(sts: seq<State>, maxSize: nat, maxFiles: nat, policy: Policy, i: nat)
    requires Behaviour(sts, maxSize, maxFiles, policy) && i < |sts|
    ensures Inv(sts[i])
  {
    if i > 0 {
      BehaviourKeeps(sts, maxSize, maxFiles, policy, i - 1);
      BehaviourNext(sts, maxSize, maxFiles, policy, i);
      NextKeeps(sts[i - 1], sts[i]);
    }
  }
}
