/** The store as a concurrent program. A state holds the store, the synchronisation variables of
    every file, the overall mutex, and one program counter per thread; a step is one lock, unlock,
    wait, wake-up, counter update or signal of one thread, or one piece of code that runs between
    two of those. The code between two such points only touches what the thread has locked. */
module Protocol {
  import opened StoreTypes
  import opened StoreSpec

  type Tid = nat

  /** How a thread visits a file. `Quiet` is the writer of a client eviction, which never signals;
      a `Victim` visit ends with the file freed; a `Probe` (remove) waits until nobody is inside
      and leaves again, under the overall mutex. */
  datatype Mode = Reader | Writer | Quiet | Victim | Probe

  /** What a thread still has to do, from where it is. */
  datatype Cont =
    | Start(op: Op)
    | Deliverable(e: Effect)
    | OpenVictim(q: Path, c: Client, lock: bool)
    | OpenCreate(q: Path, c: Client, lock: bool, evicted: Option<ResultFile>)
    | AppendEnter(content: string, c: Client, write: bool)
    | AppendEvict(q: Path, content: string, acc: seq<ResultFile>)
    | AppendVictim(q: Path, content: string, acc: seq<ResultFile>)
    | ReadNext(rest: seq<Path>, counter: int, c: Client, read: seq<ResultFile>)
    | ReadAt(rest: seq<Path>, counter: int, c: Client, read: seq<ResultFile>)
    | DepartNext(rest: seq<Path>, c: Client, gained: seq<Client>)
    | DepartAt(rest: seq<Path>, c: Client, gained: seq<Client>)
    | RemoveAt(c: Client)
    | RemoveNow(q: Path, c: Client)
    | Answer(reply: Reply)

  /** Where in a visit a thread is. `woken` says that it has been signalled since it slept. */
  datatype Phase =
    | WantOrd
    | WantMutex
    | LeaveEarly
    | Check(woken: bool)
    | Asleep
    | Reacquire(woken: bool)
    | RelOrd
    | RelMutex
    | Body
    | LeaveLate
    | ExitLock
    | ExitDec
    | ExitSignal
    | ExitUnlock

  /** `i` is the number of the operation in the order in which the overall mutex was taken. A
      `Holding` thread has the overall mutex and is between visits; a visitor has it iff `own`. */
  datatype PC =
    | Idle
    | WantOverall(op: Op)
    | Holding(i: nat, k: Cont)
    | Visit(i: nat, own: bool, p: Path, mode: Mode, k: Cont, ph: Phase)

  /** The synchronisation variables of a file: the owners of `ordering` and `mutex`, the threads
      that wait on `go` and were not signalled, and the two counters. `readers` and `writer` are
      bookkeeping: who increased the counters. */
  datatype Sync = Sync(
    ord: Option<Tid>,
    mutex: Option<Tid>,
    waitset: set<Tid>,
    activeReaders: int,
    activeWriters: int,
    readers: set<Tid>,
    writer: Option<Tid>)

  /** `hist` lists the operations in the order in which they took the overall mutex, and `results`
      the answers of those that have returned. */
  datatype State = State(
    s: Store,
    sync: map<Path, Sync>,
    overall: Option<Tid>,
    threads: seq<PC>,
    hist: seq<Op>,
    results: map<nat, Reply>)

  const FRESH := Sync(None, None, {}, 0, 0, {}, None)

  /** The condition under which a visitor waits on `go`. */
  predicate Blocked(mode: Mode, y: Sync) {
    y.activeWriters > 0 || (mode != Reader && y.activeReaders > 0)
  }

  // ---------- what a thread may do ----------

  /** Calls with bad arguments return before they touch the store. */
  predicate ValidArgs(op: Op) {
    && (op.Open? ==> ValidFlags(op.flags))
    && (op.Append? ==> op.content != "")
  }

  function PathsOf(read: seq<ResultFile>): set<Path> {
    set rf | rf in read :: rf.path
  }

  function Elements(ps: seq<Path>): set<Path> {
    set p | p in ps
  }

  /** The files that the rest of an operation, on its visit of p, finds in the list and in the index. */
  function MustList(p: Path, k: Cont): set<Path> {
    match k
    case AppendEnter(_, _, _) => {p}
    case AppendEvict(q, _, _) => {q}
    case AppendVictim(q, _, _) => {q}
    case ReadNext(rest, _, _, read) => Elements(rest) + PathsOf(read)
    case ReadAt(rest, _, _, read) => {p} + Elements(rest) + PathsOf(read)
    case DepartNext(rest, _, _) => Elements(rest)
    case DepartAt(rest, _, _) => {p} + Elements(rest)
    case RemoveAt(_) => {p}
    case RemoveNow(q, _) => {q}
    case _ => {}
  }

  /** The files it does not find. */
  function MustMiss(k: Cont): set<Path> {
    match k
    case OpenVictim(q, _, _) => {q}
    case OpenCreate(q, _, _, _) => {q}
    case _ => {}
  }

  ghost predicate Finds(s: Store, p: Path, k: Cont) {
    && Shape(s)
    && (forall q :: q in MustList(p, k) ==> q in s.tab && q in s.order)
    && (forall q :: q in MustMiss(k) ==> q !in s.tab)
  }

  predicate ForHolding(k: Cont) {
    k.Start? || k.OpenCreate? || k.AppendEvict? || k.ReadNext? || k.DepartNext? || k.RemoveNow? || k.Answer?
  }

  ghost predicate AllListed(s: Store) {
    forall p :: p in s.tab ==> p in s.order
  }

  /** The code between visits finds the files it works on. */
  ghost predicate CanHold(s: Store, k: Cont) {
    && ForHolding(k) && Finds(s, "", k)
    && (k.Start? ==> ValidArgs(k.op) && AllListed(s))
  }

  /** So does the code of a visit to p; a victim is off the list already. */
  ghost predicate CanVisit(s: Store, p: Path, k: Cont) {
    && Finds(s, p, k) && p in s.tab
    && (k.OpenVictim? || k.AppendVictim? ==> p !in s.order)
    && (k.ReadAt? ==> k.counter > 0)
  }

  /** No lock or signal that the next step of t waits for is missing. */
  predicate Ready(st: State, t: Tid) {
    && t < |st.threads|
    && match st.threads[t]
       case Idle => false
       case WantOverall(_) => st.overall.None?
       case Holding(_, _) => true
       case Visit(_, _, p, _, _, ph) =>
         && p in st.sync
         && (ph == WantOrd ==> st.sync[p].ord.None?)
         && (ph == WantMutex || ph == ExitLock || ph.Reacquire? ==> st.sync[p].mutex.None?)
         && (ph == Asleep ==> t !in st.sync[p].waitset)
  }

  /** The files that the next step of t works on are where it looks for them. */
  ghost predicate Finding(pc: PC, s: Store) {
    && (pc.Holding? ==> CanHold(s, pc.k))
    && (pc.Visit? ==> CanVisit(s, pc.p, pc.k) && (pc.mode == Victim ==> pc.p !in s.order))
  }

  ghost predicate Enabled(st: State, t: Tid) {
    Ready(st, t) && Finding(st.threads[t], st.s)
  }

  function Put(st: State, t: Tid, pc: PC): State
    requires t < |st.threads|
  {
    st.(threads := st.threads[t := pc])
  }

  // ---------- code between visits ----------

  /** The first piece of an operation, from the overall mutex to the first visit. */
  function StartStep(st: State, t: Tid, i: nat, op: Op): State
    requires t < |st.threads| && Shape(st.s) && AllListed(st.s)
  {
    match op
    case Open(p, flags, c) =>
      if p in st.s.tab && HasCreate(flags) then Put(st, t, Holding(i, Answer(Fail(FileAlreadyIn))))
      else if p !in st.s.tab && !HasCreate(flags) then Put(st, t, Holding(i, Answer(Fail(FileNotFound))))
      else if p in st.s.tab then TouchAndVisit(st, t, i, p, Writer, OpenIt(c, HasLock(flags), true, None))
      else if st.s.num == st.s.maxFiles then
        match Pick(st.s, None)
        case None => Put(st, t, Holding(i, Answer(Fail(FailedEvict))))
        case Some((v, s1)) => Put(st.(s := s1), t, Visit(i, true, v, Victim, OpenVictim(p, c, HasLock(flags)), WantOrd))
      else Put(st, t, Holding(i, OpenCreate(p, c, HasLock(flags), None)))
    case Read(p, c) => TouchAndVisit(st, t, i, p, Reader, ReadIt(c))
    case ReadN(n, c) => Put(st, t, Holding(i, ReadNext(st.s.order, ReadLimit(n, |st.s.order|), c, [])))
    case Append(p, content, c, write) =>
      if |content| >= st.s.maxSize then Put(st, t, Holding(i, Answer(Fail(ExceededSize))))
      else if p !in st.s.tab then Put(st, t, Holding(i, Answer(Fail(FileNotFound))))
      else Put(st, t, Visit(i, true, p, Writer, AppendEnter(content, c, write), WantOrd))
    case Lock(p, c) => TouchAndVisit(st, t, i, p, Writer, LockIt(c))
    case Unlock(p, c) => TouchAndVisit(st, t, i, p, Writer, UnlockIt(c))
    case Close(p, c) => TouchAndVisit(st, t, i, p, Writer, CloseIt(c))
    case Remove(p, c) =>
      if p !in st.s.tab then Put(st, t, Holding(i, Answer(Fail(FileNotFound))))
      else Put(st, t, Visit(i, true, p, Probe, RemoveAt(c), WantOrd))
    case EvictClient(c) => Put(st, t, Holding(i, DepartNext(st.s.order, c, [])))
  }

  function TouchAndVisit(st: State, t: Tid, i: nat, p: Path, mode: Mode, e: Effect): State
    requires t < |st.threads| && Shape(st.s) && AllListed(st.s)
  {
    if p !in st.s.tab then Put(st, t, Holding(i, Answer(Fail(FileNotFound))))
    else Put(st.(s := Touch(st.s, p)), t, Visit(i, true, p, mode, Deliverable(e), WantOrd))
  }

  ghost function HoldStep(st: State, t: Tid, i: nat, k: Cont): State
    requires t < |st.threads| && CanHold(st.s, k)
  {
    match k
    case Start(op) => StartStep(st, t, i, op)
    case OpenCreate(q, c, lock, evicted) =>
      Put(st.(s := Create(st.s, q, if lock then c else NOBODY), sync := st.sync[q := FRESH]), t,
          Visit(i, true, q, Writer, Deliverable(OpenIt(c, lock, false, evicted)), WantOrd))
    case AppendEvict(q, content, acc) =>
      if NeedsRoom(st.s, content) then
        match Pick(st.s, Some(q))
        case None => Put(st, t, Visit(i, true, q, Writer, Answer(Fail(FailedEvict)), LeaveLate))
        case Some((v, s1)) => Put(st.(s := s1), t, Visit(i, true, v, Victim, AppendVictim(q, content, acc), WantOrd))
      else
        Put(st.(s := AppendCommit(st.s, q, content)), t, Visit(i, true, q, Writer, Answer(Files(acc)), LeaveLate))
    case ReadNext(rest, counter, c, read) =>
      if rest == [] || counter <= 0 then
        Put(st.(s := MoveRead(st.s, read)), t, Holding(i, Answer(Files(read))))
      else
        Put(st, t, Visit(i, true, rest[0], Reader, ReadAt(rest[1..], counter, c, read), WantOrd))
    case DepartNext(rest, c, gained) =>
      if rest == [] then Put(st, t, Holding(i, Answer(Gained(gained))))
      else Put(st, t, Visit(i, true, rest[0], Quiet, DepartAt(rest[1..], c, gained), WantOrd))
    case RemoveNow(q, c) =>
      var (s1, r) := RemoveInside(st.s, q, c);
      Put(st.(s := s1, sync := if r.Removed? then st.sync - {q} else st.sync), t, Holding(i, Answer(r)))
    case Answer(r) => Put(st.(overall := None, results := st.results[i := r]), t, Idle)
    case _ => st
  }

  // ---------- a visit ----------

  /** pthread_cond_signal: some waiting thread, if there is one, is released. */
  ghost function Signal(waitset: set<Tid>): set<Tid> {
    if waitset == {} then {} else var u :| u in waitset; waitset - {u}
  }

  /** What the body of a visit does to the file and to the rest of the operation. */
  function BodyStep(st: State, t: Tid, pc: PC): State
    requires t < |st.threads| && pc.Visit? && pc.p in st.s.tab
  {
    var f := st.s.tab[pc.p];
    match pc.k
    case Deliverable(e) =>
      var (g, r) := Apply(e, pc.p, f);
      Put(st.(s := st.s.(tab := st.s.tab[pc.p := g])), t, pc.(k := Answer(r), ph := ExitLock))
    case AppendEnter(content, c, write) =>
      (match AppendCheck(st.s, f, content, c, write)
       case Some(e) => Put(st, t, pc.(k := Answer(Fail(e)), ph := LeaveLate))
       case None => Put(st, t, Holding(pc.i, AppendEvict(pc.p, content, []))))
    case ReadAt(rest, counter, c, read) =>
      if LockedByOther(f, c) then Put(st, t, pc.(k := ReadNext(rest, counter, c, read), ph := ExitLock))
      else Put(st, t, pc.(k := ReadNext(rest, counter - 1, c, [ResultFile(pc.p, f.data, [])] + read), ph := ExitLock))
    case DepartAt(rest, c, gained) =>
      var (g, next) := Depart(c, f);
      Put(st.(s := st.s.(tab := st.s.tab[pc.p := g])), t,
          pc.(k := DepartNext(rest, c, if next.Some? then [next.value] + gained else gained), ph := ExitLock))
    case _ => st
  }

  /** The test of the wait loop, and what follows when it lets the thread through. */
  function CheckStep(st: State, t: Tid, pc: PC): State
    requires t < |st.threads| && pc.Visit? && pc.p in st.sync && pc.p in st.s.tab
    requires Shape(st.s) && (pc.mode == Victim ==> pc.p !in st.s.order)
  {
    var y := st.sync[pc.p];
    if Blocked(pc.mode, y) then
      Put(st.(sync := st.sync[pc.p := y.(mutex := None, waitset := y.waitset + {t})]), t, pc.(ph := Asleep))
    else
      match pc.mode
      case Reader =>
        Put(st.(sync := st.sync[pc.p := y.(activeReaders := y.activeReaders + 1, readers := y.readers + {t})]), t,
          pc.(ph := RelOrd))
      case Probe => Put(st, t, pc.(ph := RelOrd))
      case Victim =>
        var (s1, rf) := Drop(st.s, pc.p);
        Put(st.(s := s1, sync := st.sync - {pc.p}), t,
            Holding(pc.i,
              match pc.k
              case OpenVictim(q, c, lock) => OpenCreate(q, c, lock, Some(rf))
              case AppendVictim(q, content, acc) => AppendEvict(q, content, [rf] + acc)
              case _ => pc.k))
      case _ =>
        Put(st.(sync := st.sync[pc.p := y.(activeWriters := y.activeWriters + 1, writer := Some(t))]), t,
          pc.(ph := RelOrd))
  }

  /** The counter update on the way out, and whether a signal follows it. */
  function LeaveStep(st: State, t: Tid, pc: PC): State
    requires t < |st.threads| && pc.Visit? && pc.p in st.sync
  {
    var y := st.sync[pc.p];
    if pc.mode == Reader then
      Put(st.(sync := st.sync[pc.p := y.(activeReaders := y.activeReaders - 1, readers := y.readers - {t})]), t,
          pc.(ph := if y.activeReaders - 1 == 0 then ExitSignal else ExitUnlock))
    else
      Put(st.(sync := st.sync[pc.p := y.(activeWriters := y.activeWriters - 1, writer := None)]), t,
          pc.(ph := if pc.mode == Quiet then ExitUnlock else ExitSignal))
  }

  ghost function VisitStep(st: State, t: Tid, pc: PC): State
    requires t < |st.threads| && pc.Visit? && pc.p in st.sync && pc.p in st.s.tab
    requires Shape(st.s) && (pc.mode == Victim ==> pc.p !in st.s.order)
  {
    var y := st.sync[pc.p];
    match pc.ph
    case WantOrd => Put(st.(sync := st.sync[pc.p := y.(ord := Some(t))]), t, pc.(ph := WantMutex))
    case WantMutex =>
      Put(st.(sync := st.sync[pc.p := y.(mutex := Some(t))]), t,
          pc.(ph := if pc.k.Deliverable? then LeaveEarly else Check(false)))
    case LeaveEarly => Put(st.(overall := None), t, pc.(own := false, ph := Check(false)))
    case Check(_) => CheckStep(st, t, pc)
    case Asleep => Put(st, t, pc.(ph := Reacquire(true)))
    case Reacquire(woken) => Put(st.(sync := st.sync[pc.p := y.(mutex := Some(t))]), t, pc.(ph := Check(woken)))
    case RelOrd => Put(st.(sync := st.sync[pc.p := y.(ord := None)]), t, pc.(ph := RelMutex))
    case RelMutex =>
      Put(st.(sync := st.sync[pc.p := y.(mutex := None)]), t,
          if pc.mode == Probe && pc.k.RemoveAt? then Holding(pc.i, RemoveNow(pc.p, pc.k.c)) else pc.(ph := Body))
    case Body => BodyStep(st, t, pc)
    case LeaveLate => Put(st.(overall := None), t, pc.(own := false, ph := ExitLock))
    case ExitLock => Put(st.(sync := st.sync[pc.p := y.(mutex := Some(t))]), t, pc.(ph := ExitDec))
    case ExitDec => LeaveStep(st, t, pc)
    case ExitSignal => Put(st.(sync := st.sync[pc.p := y.(waitset := Signal(y.waitset))]), t, pc.(ph := ExitUnlock))
    case ExitUnlock =>
      var st1 := st.(sync := st.sync[pc.p := y.(mutex := None)]);
      if pc.own then Put(st1, t, Holding(pc.i, pc.k))
      else if pc.k.Answer? then Put(st1.(results := st.results[pc.i := pc.k.reply]), t, Idle)
      else st1
  }

  // ---------- steps ----------

  /** One step of thread t. */
  ghost function Step(st: State, t: Tid): State
    requires Enabled(st, t)
  {
    match st.threads[t]
    case WantOverall(op) =>
      Put(st.(overall := Some(t), hist := st.hist + [op]), t, Holding(|st.hist|, Start(op)))
    case Holding(i, k) => HoldStep(st, t, i, k)
    case Visit(_, _, _, _, _, _) => VisitStep(st, t, st.threads[t])
    case Idle => st
  }

  /** An idle thread is asked for an operation. */
  function Call(st: State, t: Tid, op: Op): State
    requires t < |st.threads|
  {
    Put(st, t, WantOverall(op))
  }

  /** A wait on a condition variable may end without a signal. */
  function Spurious(st: State, t: Tid): State
    requires t < |st.threads| && st.threads[t].Visit? && st.threads[t].p in st.sync
  {
    var pc := st.threads[t];
    var y := st.sync[pc.p];
    Put(st.(sync := st.sync[pc.p := y.(waitset := y.waitset - {t})]), t, pc.(ph := Reacquire(false)))
  }

  predicate CanCall(st: State, t: Tid, op: Op) {
    t < |st.threads| && st.threads[t].Idle? && ValidArgs(op) && op.c != NOBODY
  }

  predicate CanWakeSpuriously(st: State, t: Tid) {
    && t < |st.threads| && st.threads[t].Visit? && st.threads[t].ph == Asleep
    && st.threads[t].p in st.sync && t in st.sync[st.threads[t].p].waitset
  }

  ghost predicate Init(st: State, maxSize: nat, maxFiles: nat, policy: Policy) {
    && st.s == Empty(maxSize, maxFiles, policy)
    && st.sync == map[] && st.overall.None? && st.hist == [] && st.results == map[]
    && forall t :: 0 <= t < |st.threads| ==> st.threads[t].Idle?
  }

  ghost predicate Next(st: State, st2: State) {
    || (exists t :: Enabled(st, t) && st2 == Step(st, t))
    || (exists t, op :: CanCall(st, t, op) && st2 == Call(st, t, op))
    || (exists t :: CanWakeSpuriously(st, t) && st2 == Spurious(st, t))
  }

  ghost predicate NextAt(sts: seq<State>, i: nat)
    requires i + 1 < |sts|
  {
    Next(sts[i], sts[i + 1])
  }

  /** A run of the program: from an initial state, one step after the other. (The equation keeps the
      verifier from taking the predicate apart at every use.) */
  ghost predicate Behaviour(sts: seq<State>, maxSize: nat, maxFiles: nat, policy: Policy) {
    (&& sts != [] && Init(sts[0], maxSize, maxFiles, policy)
     && forall i: nat :: i + 1 < |sts| ==> NextAt(sts, i)) == true
  }
}
