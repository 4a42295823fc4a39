/** The interleaved program does the same as the operations one after the other, in the order in
    which they took the overall mutex. An operation on one file gives the overall mutex up before
    it does its work; what it still has to do is a pending effect of that file, and because
    `ordering` was taken under the overall mutex, the pending effects of a file take place in the
    right order. `Flush` is the store with all pending effects done. */
module Linearizability {
  import opened StoreTypes
  import opened StoreSpec
  import opened Protocol
  import opened ProtocolSafety

  // ---------- pending effects ----------

  /** What a thread that gave the overall mutex up has still to do to a file, from inside of it
      or from before its turn. */
  datatype Pending = Nothing | Within(e: Effect) | Before(e: Effect)

  function PendOf(pc: PC, p: Path): Pending {
    if pc.Visit? && pc.p == p && !pc.own && pc.k.Deliverable? then
      if Inside(pc.ph) then Within(pc.k.e) else Before(pc.k.e)
    else Nothing
  }

  function PendAt(threads: seq<PC>, t: Tid, p: Path): Pending {
    if t < |threads| then PendOf(threads[t], p) else Nothing
  }

  predicate Writing(d: Pending) { d.Within? && !d.e.ReadIt? }

  predicate Reading(d: Pending) { d.Within? && d.e.ReadIt? }

  /** The file once the threads inside of it have done their work. */
  ghost function Inner(threads: seq<PC>, p: Path, f: FileState): FileState {
    if exists t: Tid :: Writing(PendAt(threads, t, p)) then
      var t: Tid :| Writing(PendAt(threads, t, p));
      Apply(PendAt(threads, t, p).e, p, f).0
    else if exists t: Tid :: Reading(PendAt(threads, t, p)) && ReadOk(f, PendAt(threads, t, p).e.c) then
      f.(canWrite := NOBODY)
    else f
  }

  /** And once the thread whose turn is next has done its work too. */
  ghost function Outer(threads: seq<PC>, p: Path, f: FileState): FileState {
    if exists t: Tid :: PendAt(threads, t, p).Before? then
      var t: Tid :| PendAt(threads, t, p).Before?;
      Apply(PendAt(threads, t, p).e, p, Inner(threads, p, f)).0
    else Inner(threads, p, f)
  }

  ghost function Flush(threads: seq<PC>, s: Store): Store {
    s.(tab := map p | p in s.tab :: Outer(threads, p, s.tab[p]))
  }

  /** At most one writer inside, not together with readers, and at most one thread next in turn. */
  ghost predicate Unique(threads: seq<PC>, p: Path) {
    && (forall t: Tid, u: Tid :: Writing(PendAt(threads, t, p)) && PendAt(threads, u, p).Within? ==> t == u)
    && (forall t: Tid, u: Tid :: PendAt(threads, t, p).Before? && PendAt(threads, u, p).Before? ==> t == u)
  }

  lemma {:induction false} PendNeeds(st: State, p: Path, t: Tid)
    requires Inv(st) && p in st.sync
    ensures var y := st.sync[p]; var d := PendAt(st.threads, t, p);
      && (Writing(d) ==> y.writer == Some(t) && y.readers == {})
      && (Reading(d) ==> t in y.readers && y.writer.None?)
      && (d.Before? ==> y.ord == Some(t))
  {
    assert FilesOk(st);
    assert FileOk(st.sync[p], st.threads, p);
    assert RoleOk(st.sync[p], At(st.threads, t, p), t);
    if t < |st.threads| { ThreadOk(st, t); }
  }

  lemma {:induction false} InvUnique(st: State, p: Path)
    requires Inv(st) && p in st.sync
    ensures Unique(st.threads, p)
  {
    forall t: Tid, u: Tid | Writing(PendAt(st.threads, t, p)) && PendAt(st.threads, u, p).Within? ensures t == u {
      PendNeeds(st, p, t);
      PendNeeds(st, p, u);
    }
    forall t: Tid, u: Tid | PendAt(st.threads, t, p).Before? && PendAt(st.threads, u, p).Before? ensures t == u {
      PendNeeds(st, p, t);
      PendNeeds(st, p, u);
    }
  }

  lemma {:induction false} UniqueAt(st: State, p: Path)
    requires Inv(st) && p in st.s.tab
    ensures Unique(st.threads, p)
  {
    assert p in st.s.tab.Keys && st.s.tab.Keys == st.sync.Keys;
    InvUnique(st, p);
  }

  ghost predicate SamePend(a: seq<PC>, b: seq<PC>, p: Path) {
    forall t: Tid :: PendAt(a, t, p) == PendAt(b, t, p)
  }

  lemma {:induction false} SameInner(a: seq<PC>, b: seq<PC>, p: Path, f: FileState)
    requires Unique(a, p) && SamePend(a, b, p)
    ensures Inner(a, p, f) == Inner(b, p, f)
  {
    if t: Tid :| Writing(PendAt(a, t, p)) {
      assert Writing(PendAt(b, t, p));
    } else if t: Tid :| Reading(PendAt(a, t, p)) && ReadOk(f, PendAt(a, t, p).e.c) {
      assert Reading(PendAt(b, t, p)) && ReadOk(f, PendAt(b, t, p).e.c);
    }
  }

  lemma {:induction false} SameOuter(a: seq<PC>, b: seq<PC>, p: Path, f: FileState)
    requires Unique(a, p) && SamePend(a, b, p)
    ensures Outer(a, p, f) == Outer(b, p, f)
  {
    SameInner(a, b, p, f);
    if t: Tid :| PendAt(a, t, p).Before? {
      assert PendAt(b, t, p).Before?;
    }
  }

  ghost predicate NoPend(threads: seq<PC>, p: Path) {
    forall t: Tid :: PendAt(threads, t, p).Nothing?
  }

  /** The file as the pending effects will leave it, in each of the situations that occur. */
  lemma {:induction false} OuterOfNone(threads: seq<PC>, p: Path, f: FileState)
    requires NoPend(threads, p)
    ensures Outer(threads, p, f) == f
  {
  }

  lemma {:induction false} InnerOfWriter(threads: seq<PC>, p: Path, f: FileState, t: Tid)
    requires Unique(threads, p) && Writing(PendAt(threads, t, p))
    ensures Inner(threads, p, f) == Apply(PendAt(threads, t, p).e, p, f).0
  {
  }

  lemma {:induction false} OuterOfNext(threads: seq<PC>, p: Path, f: FileState, t: Tid)
    requires Unique(threads, p) && PendAt(threads, t, p).Before?
    ensures Outer(threads, p, f) == Apply(PendAt(threads, t, p).e, p, Inner(threads, p, f)).0
  {
  }

  /** Readers inside only take a write permission away. */
  lemma {:induction false} OuterOfReaders(threads: seq<PC>, p: Path, f: FileState)
    requires forall t: Tid :: PendAt(threads, t, p).Nothing? || Reading(PendAt(threads, t, p))
    ensures Outer(threads, p, f) == f || Outer(threads, p, f) == f.(canWrite := NOBODY)
  {
  }

  // ---------- what an operation has still to do ----------

  function ReadOn(s: Store, rest: seq<Path>, counter: int, c: Client, read: seq<ResultFile>): (Store, Reply)
    requires forall p :: p in rest ==> p in s.tab
  {
    var all := ReadRest(s.tab, rest, counter, c, read);
    (MoveRead(s, all), Files(all))
  }

  function DepartOn(s: Store, rest: seq<Path>, c: Client, gained: seq<Client>): (Store, Reply)
    requires forall p :: p in rest ==> p in s.tab
  {
    var (tab, all) := DepartRest(s.tab, rest, c, gained);
    (s.(tab := tab), Gained(all))
  }

  /** What the operation will have done, and its answer, if it went on alone from store s. */
  ghost function RestHold(s: Store, k: Cont): (Store, Reply)
    requires CanHold(s, k)
  {
    match k
    case Start(op) => Exec(s, op)
    case OpenCreate(q, c, lock, evicted) => OpenNew(s, q, c, lock, evicted)
    case AppendEvict(q, content, acc) => AppendLoop(s, q, content, acc)
    case ReadNext(rest, counter, c, read) => ReadOn(s, rest, counter, c, read)
    case DepartNext(rest, c, gained) => DepartOn(s, rest, c, gained)
    case RemoveNow(q, c) => RemoveInside(s, q, c)
    case Answer(r) => (s, r)
    case _ => (s, Done)
  }

  ghost function RestVisit(s: Store, p: Path, k: Cont): (Store, Reply)
    requires CanVisit(s, p, k)
  {
    match k
    case Deliverable(e) => Deliver(s, p, e)
    case OpenVictim(q, c, lock) => var (s1, rf) := Drop(s, p); OpenNew(s1, q, c, lock, Some(rf))
    case AppendEnter(content, c, write) => AppendInside(s, p, content, c, write)
    case AppendVictim(q, content, acc) => var (s1, rf) := Drop(s, p); AppendLoop(s1, q, content, [rf] + acc)
    case ReadAt(rest, counter, c, read) => ReadOn(s, [p] + rest, counter, c, read)
    case DepartAt(rest, c, gained) => DepartOn(s, [p] + rest, c, gained)
    case RemoveAt(c) => RemoveInside(s, p, c)
    case ReadNext(rest, counter, c, read) => ReadOn(s, rest, counter, c, read)
    case DepartNext(rest, c, gained) => DepartOn(s, rest, c, gained)
    case Answer(r) => (s, r)
    case _ => (s, Done)
  }

  ghost function RestOf(pc: PC, s: Store): (Store, Reply)
    requires Owns(pc) && Found(pc, s)
  {
    if pc.Holding? then RestHold(s, pc.k) else RestVisit(s, pc.p, pc.k)
  }

  /** The answer that a thread without the overall mutex is going to give. */
  ghost function Expect(threads: seq<PC>, s: Store, pc: PC): Reply
    requires pc.Visit? && pc.p in s.tab
  {
    match pc.k
    case Answer(r) => r
    case Deliverable(e) =>
      Apply(e, pc.p, if Inside(pc.ph) then s.tab[pc.p] else Inner(threads, pc.p, s.tab[pc.p])).1
    case _ => Done
  }

  // ---------- the invariant ----------

  predicate Waits(pc: PC) { pc.Visit? && !pc.own }

  ghost predicate OwnerAgrees(st: State, s0: Store)
    requires Shape(s0)
  {
    match st.overall
    case None => Flush(st.threads, st.s) == Run(s0, st.hist)
    case Some(t) =>
      && t < |st.threads| && Owns(st.threads[t]) && st.threads[t].i + 1 == |st.hist|
      && Found(st.threads[t], Flush(st.threads, st.s))
      && RestOf(st.threads[t], Flush(st.threads, st.s)) == (Run(s0, st.hist), ReplyAt(s0, st.hist, st.threads[t].i))
  }

  ghost predicate WaiterAgrees(st: State, s0: Store, t: Tid)
    requires Shape(s0)
  {
    t < |st.threads| && Waits(st.threads[t]) ==>
      && st.threads[t].p in st.s.tab && st.threads[t].i < |st.hist|
      && Expect(st.threads, st.s, st.threads[t]) == ReplyAt(s0, st.hist, st.threads[t].i)
  }

  ghost predicate ResultsAgree(st: State, s0: Store)
    requires Shape(s0)
  {
    forall i :: i in st.results ==> i < |st.hist| && st.results[i] == ReplyAt(s0, st.hist, i)
  }

  ghost predicate Agrees(st: State, s0: Store)
    requires Shape(s0)
  {
    (OwnerAgrees(st, s0) && ResultsAgree(st, s0) && forall t: Tid :: WaiterAgrees(st, s0, t)) == true
  }

  lemma {:induction false} FlushFinds(pc: PC, threads: seq<PC>, s: Store)
    requires Finding(pc, s) && Shape(s)
    ensures Found(pc, Flush(threads, s))
  {
    SameFinding(pc, s, Flush(threads, s));
  }

  // ---------- steps in general ----------

  /** Thread t makes a step, and the others do not. */
  ghost predicate Moves(st: State, st2: State, t: Tid) {
    (&& t < |st.threads| && |st2.threads| == |st.threads| && st2.threads == st.threads[t := st2.threads[t]]
     && Inv(st) && Inv(st2)) == true
  }

  /** No pending effect comes or goes, and the files that have one stay as they are. */
  ghost predicate LeavesPending(st: State, st2: State) {
    && (forall p :: SamePend(st.threads, st2.threads, p))
    && forall p :: p in st.s.tab ==> NoPend(st.threads, p) || (p in st2.s.tab && st2.s.tab[p] == st.s.tab[p])
  }

  lemma {:induction false} PendFrame(a: seq<PC>, b: seq<PC>, t: Tid)
    requires t < |a| && |b| == |a| && b == a[t := b[t]]
    requires forall p :: PendOf(a[t], p) == PendOf(b[t], p)
    ensures forall p :: SamePend(a, b, p)
  {
  }

  lemma {:induction false} AllUnique(st: State)
    requires Inv(st)
    ensures forall p :: p in st.s.tab ==> Unique(st.threads, p)
  {
    forall p | p in st.s.tab ensures Unique(st.threads, p) {
      assert p in st.s.tab.Keys && st.s.tab.Keys == st.sync.Keys;
      InvUnique(st, p);
    }
  }

  lemma {:induction false} FlushSame(a: seq<PC>, b: seq<PC>, s: Store)
    requires forall p :: p in s.tab ==> Unique(b, p) && SamePend(a, b, p)
    ensures Flush(b, s) == Flush(a, s)
  {
    forall p | p in s.tab ensures Outer(b, p, s.tab[p]) == Outer(a, p, s.tab[p]) {
      assert SamePend(b, a, p);
      SameOuter(b, a, p, s.tab[p]);
    }
  }

  lemma {:induction false} FlushKept(st: State, st2: State, t: Tid)
    requires Moves(st, st2, t) && forall p :: SamePend(st.threads, st2.threads, p)
    ensures Flush(st2.threads, st2.s) == Flush(st.threads, st2.s)
  {
    AllUnique(st2);
    FlushSame(st.threads, st2.threads, st2.s);
  }

  lemma {:induction false} WaiterKept(st: State, st2: State, t: Tid, u: Tid)
    requires Moves(st, st2, t) && LeavesPending(st, st2) && u < |st.threads| && st.threads[u] == st2.threads[u]
    requires Waits(st.threads[u])
    ensures st.threads[u].p in st.s.tab && st.threads[u].p in st2.s.tab
    ensures Expect(st2.threads, st2.s, st2.threads[u]) == Expect(st.threads, st.s, st.threads[u])
  {
    var pc := st.threads[u];
    VisitedExists(st, u);
    VisitedExists(st2, u);
    if pc.k.Deliverable? {
      assert !PendAt(st.threads, u, pc.p).Nothing?;
      assert SamePend(st.threads, st2.threads, pc.p);
      InvUnique(st, pc.p);
      SameInner(st.threads, st2.threads, pc.p, st.s.tab[pc.p]);
    }
  }

  /** The waiters but for t. */
  ghost predicate OthersAgree(st: State, s0: Store, t: Tid)
    requires Shape(s0)
  {
    forall u: Tid :: u != t ==> WaiterAgrees(st, s0, u)
  }

  lemma {:induction false} OthersKept(st: State, st2: State, t: Tid, s0: Store)
    requires Shape(s0) && Moves(st, st2, t) && LeavesPending(st, st2) && st2.hist == st.hist
    requires OthersAgree(st, s0, t)
    ensures OthersAgree(st2, s0, t)
  {
    forall u: Tid | u != t ensures WaiterAgrees(st2, s0, u) {
      assert WaiterAgrees(st, s0, u);
      if u < |st.threads| && Waits(st.threads[u]) { WaiterKept(st, st2, t, u); }
    }
  }

  /** The owner of the overall mutex, when another thread makes a step. */
  lemma {:induction false} OwnerElsewhere(st: State, st2: State, t: Tid, s0: Store)
    requires Shape(s0) && Moves(st, st2, t) && OwnerAgrees(st, s0)
    requires st2.overall == st.overall && st2.overall != Some(t) && st2.hist == st.hist
    requires Flush(st2.threads, st2.s) == Flush(st.threads, st.s)
    ensures OwnerAgrees(st2, s0)
  {
  }

  lemma {:induction false} AllAgree(st: State, t: Tid, s0: Store)
    requires Shape(s0) && OwnerAgrees(st, s0) && ResultsAgree(st, s0) && OthersAgree(st, s0, t)
      && WaiterAgrees(st, s0, t)
    ensures Agrees(st, s0)
  {
  }

  lemma {:induction false} OwnerGoesOn(st: State, st2: State, t: Tid, s0: Store)
    requires Shape(s0) && OwnerAgrees(st, s0) && t < |st.threads| && t < |st2.threads|
    requires st.overall == Some(t) && st2.overall == Some(t) && st2.hist == st.hist
    requires Owns(st2.threads[t]) && st2.threads[t].i == st.threads[t].i
      && Flush(st2.threads, st2.s) == Flush(st.threads, st2.s)
    requires Found(st2.threads[t], Flush(st.threads, st2.s))
    requires RestOf(st2.threads[t], Flush(st.threads, st2.s)) == RestOf(st.threads[t], Flush(st.threads, st.s))
    ensures OwnerAgrees(st2, s0)
  {
  }

  /** The owner itself makes a step: what it has done and has still to do stays the same. */
  lemma {:induction false} OwnerStep(st: State, st2: State, t: Tid, s0: Store)
    requires Shape(s0) && Moves(st, st2, t) && Agrees(st, s0) && LeavesPending(st, st2)
    requires st.overall == Some(t) && st2.overall == Some(t) && st2.hist == st.hist && st2.results == st.results
    requires Owns(st2.threads[t]) && st2.threads[t].i == st.threads[t].i
    requires Found(st2.threads[t], Flush(st.threads, st2.s))
    requires RestOf(st2.threads[t], Flush(st.threads, st2.s)) == RestOf(st.threads[t], Flush(st.threads, st.s))
    ensures Agrees(st2, s0)
  {
    FlushKept(st, st2, t);
    OthersKept(st, st2, t, s0);
    OwnerGoesOn(st, st2, t, s0);
    AllAgree(st2, t, s0);
  }

  /** A thread without the overall mutex makes a step that has no effect on a file. */
  lemma {:induction false} WaiterStep(st: State, st2: State, t: Tid, s0: Store)
    requires Shape(s0) && Moves(st, st2, t) && Agrees(st, s0) && LeavesPending(st, st2) && st2.s == st.s
    requires st.overall != Some(t) && st2.overall == st.overall && st2.hist == st.hist
    requires ResultsAgree(st2, s0) && WaiterAgrees(st2, s0, t)
    ensures Agrees(st2, s0)
  {
    FlushKept(st, st2, t);
    OthersKept(st, st2, t, s0);
    OwnerElsewhere(st, st2, t, s0);
  }

  // ---------- steps of a visit that have no effect ----------

  ghost predicate SameWork(st: State, st2: State) {
    st2.s == st.s && st2.hist == st.hist
  }

  /** The thread goes on to another phase of its visit. */
  /** Thread t goes on to another phase of its visit, and nothing that others see changes. */
  ghost predicate NewPhase(st: State, st2: State, t: Tid) {
    (&& t < |st.threads| && |st2.threads| == |st.threads| && SameWork(st, st2)
     && st2.overall == st.overall && st2.results == st.results
     && var pc := st.threads[t]; var pc2 := st2.threads[t];
     && pc.Visit? && pc2.Visit? && pc2 == pc.(ph := pc2.ph)
     && (!pc.own && pc.k.Deliverable? ==> Inside(pc.ph) == Inside(pc2.ph))) == true
  }

  lemma {:induction false} OwnPhaseAgrees(st: State, st2: State, t: Tid, s0: Store)
    requires Shape(s0) && Moves(st, st2, t) && Agrees(st, s0) && NewPhase(st, st2, t) && st.threads[t].own
    ensures Agrees(st2, s0)
  {
    PendFrame(st.threads, st2.threads, t);
    VisitedExists(st, t);
    OwnerIs(st, t);
    ThreadOk(st2, t);
    FlushFinds(st2.threads[t], st.threads, st.s);
    OwnerStep(st, st2, t, s0);
  }

  lemma {:induction false} NewPhaseLeaves(st: State, st2: State, t: Tid)
    requires Moves(st, st2, t) && NewPhase(st, st2, t)
    ensures LeavesPending(st, st2)
  {
    PendFrame(st.threads, st2.threads, t);
  }

  lemma {:induction false} NewPhaseResults(st: State, st2: State, t: Tid, s0: Store)
    requires Shape(s0) && Agrees(st, s0) && NewPhase(st, st2, t)
    ensures ResultsAgree(st2, s0)
  {
    assert ResultsAgree(st, s0);
  }

  lemma {:induction false} NewPhaseWaits(st: State, st2: State, t: Tid, s0: Store)
    requires Shape(s0) && Moves(st, st2, t) && Agrees(st, s0) && NewPhase(st, st2, t) && !st.threads[t].own
    requires LeavesPending(st, st2)
    ensures WaiterAgrees(st2, s0, t)
  {
    var p := st.threads[t].p;
    VisitedExists(st, t);
    InvUnique(st, p);
    SameInner(st.threads, st2.threads, p, st.s.tab[p]);
    assert WaiterAgrees(st, s0, t);
  }

  lemma {:induction false} WaiterPhaseAgrees(st: State, st2: State, t: Tid, s0: Store)
    requires Shape(s0) && Moves(st, st2, t) && Agrees(st, s0) && NewPhase(st, st2, t) && !st.threads[t].own
    ensures Agrees(st2, s0)
  {
    NewPhaseLeaves(st, st2, t);
    NewPhaseResults(st, st2, t, s0);
    NewPhaseWaits(st, st2, t, s0);
    OwnerIs(st, t);
    WaiterStep(st, st2, t, s0);
  }

  lemma {:induction false} PhaseAgrees(st: State, st2: State, t: Tid, s0: Store)
    requires Shape(s0) && Moves(st, st2, t) && Agrees(st, s0) && NewPhase(st, st2, t)
    ensures Agrees(st2, s0)
  {
    if st.threads[t].own { OwnPhaseAgrees(st, st2, t, s0); } else { WaiterPhaseAgrees(st, st2, t, s0); }
  }

  lemma {:induction false} OwnerIs(st: State, t: Tid)
    requires Inv(st)
    ensures st.overall == Some(t) <==> t < |st.threads| && Owns(st.threads[t])
  {
    assert OwnerOk(st);
  }

  lemma {:induction false} SameRest(pc: PC, pc2: PC, s: Store)
    requires pc.Visit? && pc.own && Found(pc, s) && Found(pc2, s)
    requires pc2 == Holding(pc.i, if pc.k.RemoveAt? then RemoveNow(pc.p, pc.k.c) else pc.k)
    requires pc.k.RemoveAt? || pc.k.ReadNext? || pc.k.DepartNext?
    ensures RestOf(pc2, s) == RestOf(pc, s)
  {
  }

  /** The owner of the overall mutex ends its visit and goes on to its next piece of code. */
  lemma {:induction false} VisitEndAgrees(st: State, st2: State, t: Tid, s0: Store)
    requires Shape(s0) && Moves(st, st2, t) && Agrees(st, s0) && SameWork(st, st2)
    requires st2.overall == st.overall && st2.results == st.results
    requires var pc := st.threads[t];
      pc.Visit? && pc.own
      && st2.threads[t] == Holding(pc.i, if pc.k.RemoveAt? then RemoveNow(pc.p, pc.k.c) else pc.k)
      && (pc.k.RemoveAt? || pc.k.ReadNext? || pc.k.DepartNext?)
    ensures Agrees(st2, s0)
  {
    PendFrame(st.threads, st2.threads, t);
    OwnerIs(st, t);
    ThreadOk(st2, t);
    FlushFinds(st2.threads[t], st.threads, st.s);
    SameRest(st.threads[t], st2.threads[t], Flush(st.threads, st.s));
    OwnerStep(st, st2, t, s0);
  }

  lemma {:induction false} ResultAdded(st: State, st2: State, t: Tid, s0: Store)
    requires Shape(s0) && ResultsAgree(st, s0) && WaiterAgrees(st, s0, t) && t < |st.threads| && st2.hist == st.hist
    requires var pc := st.threads[t]; Waits(pc) && pc.k.Answer? && st2.results == st.results[pc.i := pc.k.reply]
    ensures ResultsAgree(st2, s0)
  {
  }

  /** The answer is there. */
  lemma {:induction false} ResultAgrees(st: State, st2: State, t: Tid, s0: Store)
    requires Shape(s0) && Moves(st, st2, t) && Agrees(st, s0) && SameWork(st, st2)
    requires st2.overall == st.overall && st2.threads[t].Idle?
    requires var pc := st.threads[t]; Waits(pc) && pc.k.Answer? && st2.results == st.results[pc.i := pc.k.reply]
    ensures Agrees(st2, s0)
  {
    PendFrame(st.threads, st2.threads, t);
    OwnerIs(st, t);
    ResultAdded(st, st2, t, s0);
    WaiterStep(st, st2, t, s0);
  }

  /** The owner gives the overall mutex up: what it has still to do is now pending, or done. */
  lemma {:induction false} OwnerLeft(st: State, st2: State, t: Tid, s0: Store)
    requires Shape(s0) && OwnerAgrees(st, s0) && st.overall == Some(t)
    requires st2.overall.None? && st2.hist == st.hist
    requires Flush(st2.threads, st2.s) == RestOf(st.threads[t], Flush(st.threads, st.s)).0
    ensures OwnerAgrees(st2, s0)
    ensures st.threads[t].i < |st.hist|
    ensures RestOf(st.threads[t], Flush(st.threads, st.s)).1 == ReplyAt(s0, st.hist, st.threads[t].i)
  {
  }

  lemma {:induction false} RestIsAnswer(pc: PC, s: Store)
    requires Owns(pc) && Found(pc, s) && pc.k.Answer?
    ensures RestOf(pc, s) == (s, pc.k.reply)
  {
  }

  ghost predicate LeavesLate(st: State, st2: State, t: Tid) {
    (&& t < |st.threads| && |st2.threads| == |st.threads| && SameWork(st, st2)
     && st2.overall.None? && st2.results == st.results
     && var pc := st.threads[t];
     pc.Visit? && pc.own && pc.k.Answer? && st2.threads[t] == pc.(own := false, ph := ExitLock)) == true
  }

  lemma {:induction false} LeaveLateOwner(st: State, st2: State, t: Tid, s0: Store)
    requires Shape(s0) && Moves(st, st2, t) && Agrees(st, s0) && LeavesLate(st, st2, t)
    requires Flush(st2.threads, st2.s) == Flush(st.threads, st2.s)
    ensures OwnerAgrees(st2, s0) && ResultsAgree(st2, s0) && WaiterAgrees(st2, s0, t)
  {
    OwnerIs(st, t);
    VisitedExists(st, t);
    RestIsAnswer(st.threads[t], Flush(st.threads, st.s));
    OwnerLeft(st, st2, t, s0);
  }

  /** An append gives the overall mutex up when all is done. */
  lemma {:induction false} LeaveLateAgrees(st: State, st2: State, t: Tid, s0: Store)
    requires Shape(s0) && Moves(st, st2, t) && Agrees(st, s0) && LeavesLate(st, st2, t)
    ensures Agrees(st2, s0)
  {
    PendFrame(st.threads, st2.threads, t);
    FlushKept(st, st2, t);
    LeaveLateOwner(st, st2, t, s0);
    OthersKept(st, st2, t, s0);
    AllAgree(st2, t, s0);
  }

  // ---------- a single-file operation gives the overall mutex up ----------

  ghost predicate LeavesNow(st: State, st2: State, t: Tid) {
    (&& t < |st.threads| && |st2.threads| == |st.threads|
     && st.threads[t].Visit? && st.threads[t].own && st.threads[t].k.Deliverable? && st.threads[t].ph == LeaveEarly
     && st2.threads[t] == st.threads[t].(own := false, ph := Check(false))) == true
  }

  lemma {:induction false} NobodyBefore(st: State, st2: State, t: Tid, u: Tid)
    requires Moves(st, st2, t) && LeavesNow(st, st2, t)
    ensures var p := st.threads[t].p;
      && !PendAt(st.threads, u, p).Before?
      && (u != t ==> PendAt(st2.threads, u, p) == PendAt(st.threads, u, p))
  {
    var p := st.threads[t].p;
    VisitedExists(st, t);
    assert FilesOk(st);
    assert RoleOk(st.sync[p], At(st.threads, t, p), t);
    PendNeeds(st, p, u);
  }

  lemma {:induction false} BecomesBefore(st: State, st2: State, t: Tid)
    requires Moves(st, st2, t) && st2.s == st.s
    requires LeavesNow(st, st2, t)
    ensures var p := st.threads[t].p; var e := st.threads[t].k.e;
      && p in st.s.tab
      && Inner(st2.threads, p, st.s.tab[p]) == Outer(st.threads, p, st.s.tab[p])
      && Outer(st2.threads, p, st.s.tab[p]) == Apply(e, p, Outer(st.threads, p, st.s.tab[p])).0
  {
    var p := st.threads[t].p;
    VisitedExists(st, t);
    var f := st.s.tab[p];
    forall u: Tid ensures !PendAt(st.threads, u, p).Before?
      && (u != t ==> PendAt(st2.threads, u, p) == PendAt(st.threads, u, p)) {
      NobodyBefore(st, st2, t, u);
    }
    UniqueAt(st, p);
    UniqueAt(st2, p);
    InnerButNext(st.threads, st2.threads, p, f, t);
    OuterOfNext(st2.threads, p, f, t);
  }

  /** The threads inside of a file do not include the one whose turn is next. */
  lemma {:induction false} InnerButNext(a: seq<PC>, b: seq<PC>, p: Path, f: FileState, t: Tid)
    requires Unique(a, p) && Unique(b, p)
    requires !PendAt(a, t, p).Within? && !PendAt(b, t, p).Within?
    requires forall u: Tid :: u != t ==> PendAt(a, u, p) == PendAt(b, u, p)
    ensures Inner(a, p, f) == Inner(b, p, f)
  {
    if u: Tid :| Writing(PendAt(a, u, p)) {
      assert u != t;
      assert Writing(PendAt(b, u, p));
    } else if u: Tid :| Reading(PendAt(a, u, p)) && ReadOk(f, PendAt(a, u, p).e.c) {
      assert u != t;
      assert Reading(PendAt(b, u, p)) && ReadOk(f, PendAt(b, u, p).e.c);
    }
  }

  /** Only the pending effects of p change, and t was or is the thread whose turn is next there. */
  ghost predicate ChangesAt(st: State, st2: State, t: Tid, p: Path) {
    (&& Moves(st, st2, t) && st2.hist == st.hist && p in st.s.tab
     && (forall q :: q != p ==> PendOf(st.threads[t], q) == PendOf(st2.threads[t], q))
     && (forall u: Tid :: u != t ==> !PendAt(st.threads, u, p).Before?)) == true
  }

  lemma {:induction false} ExpectInside(a: seq<PC>, b: seq<PC>, s: Store, pc: PC)
    requires Waits(pc) && pc.p in s.tab && !PendOf(pc, pc.p).Before?
    ensures Expect(b, s, pc) == Expect(a, s, pc)
  {
  }

  lemma {:induction false} ChangesElsewhere(st: State, st2: State, t: Tid, p: Path, q: Path)
    requires ChangesAt(st, st2, t, p) && q != p
    ensures SamePend(st.threads, st2.threads, q)
  {
    assert PendOf(st.threads[t], q) == PendOf(st2.threads[t], q);
  }

  lemma {:induction false} WaiterKeptAt(st: State, st2: State, t: Tid, p: Path, u: Tid)
    requires ChangesAt(st, st2, t, p) && st2.s == st.s && u != t && u < |st.threads| && Waits(st.threads[u])
    ensures u < |st2.threads| && st2.threads[u] == st.threads[u] && st.threads[u].p in st.s.tab
    ensures Expect(st2.threads, st2.s, st.threads[u]) == Expect(st.threads, st.s, st.threads[u])
  {
    var pc := st.threads[u];
    VisitedExists(st, u);
    if pc.p == p {
      assert !PendAt(st.threads, u, p).Before?;
      ExpectInside(st.threads, st2.threads, st.s, pc);
    } else if pc.k.Deliverable? {
      ChangesElsewhere(st, st2, t, p, pc.p);
      UniqueAt(st, pc.p);
      SameExpect(st.threads, st2.threads, st.s, st2.s, pc);
    }
  }

  lemma {:induction false} OthersKeptAt(st: State, st2: State, t: Tid, p: Path, s0: Store)
    requires Shape(s0) && ChangesAt(st, st2, t, p) && st2.s == st.s && st2.hist == st.hist && OthersAgree(st, s0, t)
    ensures OthersAgree(st2, s0, t)
  {
    forall u: Tid | u != t ensures WaiterAgrees(st2, s0, u) {
      assert WaiterAgrees(st, s0, u);
      if u < |st.threads| && Waits(st.threads[u]) { WaiterKeptAt(st, st2, t, p, u); }
    }
  }

  lemma {:induction false} FlushElsewhere(st: State, st2: State, t: Tid, p: Path, q: Path)
    requires ChangesAt(st, st2, t, p) && q in st2.s.tab && q != p
    ensures Outer(st2.threads, q, st2.s.tab[q]) == Outer(st.threads, q, st2.s.tab[q])
  {
    assert q in st2.s.tab.Keys && st2.s.tab.Keys == st2.sync.Keys;
    InvUnique(st2, q);
    SameOuter(st2.threads, st.threads, q, st2.s.tab[q]);
  }

  lemma {:induction false} LeaveEarlyAgrees(st: State, st2: State, t: Tid, s0: Store)
    requires Shape(s0) && Moves(st, st2, t) && Agrees(st, s0) && SameWork(st, st2) && LeavesNow(st, st2, t)
    requires st2.overall.None? && st2.results == st.results
    ensures Agrees(st2, s0)
  {
    var p := st.threads[t].p;
    OwnerIs(st, t);
    NobodyNext(st, t);
    BecomesBefore(st, st2, t);
    OthersKeptAt(st, st2, t, p, s0);
    LeaveEarlyFlush(st, st2, t);
    OwnerLeft(st, st2, t, s0);
    AllAgree(st2, t, s0);
  }

  /** A thread that owns `ordering` has nobody else before its turn. */
  lemma {:induction false} NobodyNext(st: State, t: Tid)
    requires Inv(st) && t < |st.threads| && st.threads[t].Visit? && HasOrd(st.threads[t].ph)
    ensures st.threads[t].p in st.s.tab
    ensures forall u: Tid :: u != t ==> !PendAt(st.threads, u, st.threads[t].p).Before?
  {
    var p := st.threads[t].p;
    VisitedExists(st, t);
    assert FilesOk(st);
    assert FileOk(st.sync[p], st.threads, p);
    assert RoleOk(st.sync[p], At(st.threads, t, p), t);
    forall u: Tid | u != t ensures !PendAt(st.threads, u, p).Before? { PendNeeds(st, p, u); }
  }

  lemma {:induction false} LeaveEarlyFlush(st: State, st2: State, t: Tid)
    requires LeavesNow(st, st2, t) && ChangesAt(st, st2, t, st.threads[t].p) && st2.s == st.s
    requires Found(st.threads[t], Flush(st.threads, st.s))
    ensures RestOf(st.threads[t], Flush(st.threads, st.s)) ==
            (Flush(st2.threads, st2.s), Expect(st2.threads, st2.s, st2.threads[t]))
  {
    var p := st.threads[t].p;
    BecomesBefore(st, st2, t);
    FlushBut(st, st2, t, p);
    RestIsDeliver(st.threads[t], Flush(st.threads, st.s));
  }

  lemma {:induction false} RestIsDeliver(pc: PC, s: Store)
    requires pc.Visit? && pc.own && Found(pc, s) && pc.k.Deliverable?
    ensures Shape(s) && pc.p in s.tab && RestOf(pc, s) == Deliver(s, pc.p, pc.k.e)
  {
  }

  lemma {:induction false} FlushBut(st: State, st2: State, t: Tid, p: Path)
    requires ChangesAt(st, st2, t, p) && st2.s == st.s
    ensures Flush(st2.threads, st2.s) ==
            Flush(st.threads, st.s).(tab := Flush(st.threads, st.s).tab[p := Outer(st2.threads, p, st.s.tab[p])])
  {
    forall q | q in st.s.tab && q != p ensures Outer(st2.threads, q, st.s.tab[q]) == Outer(st.threads, q, st.s.tab[q]) {
      FlushElsewhere(st, st2, t, p, q);
    }
    FlushOf(st.threads, st2.threads, st.s, p);
  }

  lemma {:induction false} FlushOf(a: seq<PC>, b: seq<PC>, s: Store, p: Path)
    requires p in s.tab && forall q :: q in s.tab && q != p ==> Outer(b, q, s.tab[q]) == Outer(a, q, s.tab[q])
    ensures Flush(b, s) == Flush(a, s).(tab := Flush(a, s).tab[p := Outer(b, p, s.tab[p])])
  {
    MapBut(Flush(a, s).tab, Flush(b, s).tab, p);
  }

  lemma {:induction false} MapBut(m: map<Path, FileState>, n: map<Path, FileState>, p: Path)
    requires p in n && m.Keys == n.Keys && forall q :: q in m && q != p ==> n[q] == m[q]
    ensures n == m[p := n[p]]
  {
  }

  // ---------- it enters the file ----------

  ghost predicate EntersNow(st: State, st2: State, t: Tid) {
    (&& t < |st.threads| && |st2.threads| == |st.threads|
     && Waits(st.threads[t]) && st.threads[t].k.Deliverable? && st.threads[t].ph.Check?
     && st2.threads[t] == st.threads[t].(ph := RelOrd)
     && st.threads[t].p in st.sync && !Blocked(st.threads[t].mode, st.sync[st.threads[t].p])) == true
  }

  lemma {:induction false} WayFreeOf(st: State, t: Tid, u: Tid)
    requires Inv(st) && t < |st.threads| && st.threads[t].Visit? && st.threads[t].p in st.sync
    requires !Blocked(st.threads[t].mode, st.sync[st.threads[t].p])
    ensures !Writing(PendAt(st.threads, u, st.threads[t].p))
    ensures st.threads[t].mode != Reader ==> !Reading(PendAt(st.threads, u, st.threads[t].p))
  {
    var p := st.threads[t].p;
    assert FilesOk(st);
    assert FileOk(st.sync[p], st.threads, p);
    PendNeeds(st, p, u);
  }

  /** Whoever gets through finds no writer, and a writer finds nobody. */
  lemma {:induction false} WayFreeAt(st: State, st2: State, t: Tid, u: Tid)
    requires EntersNow(st, st2, t) && ChangesAt(st, st2, t, st.threads[t].p)
    ensures var p := st.threads[t].p;
      && !Writing(PendAt(st.threads, u, p)) && !PendAt(st2.threads, u, p).Before?
      && (st.threads[t].mode != Reader ==> !Reading(PendAt(st.threads, u, p)))
      && (u != t ==> PendAt(st2.threads, u, p) == PendAt(st.threads, u, p))
  {
    var p := st.threads[t].p;
    WayFreeOf(st, t, u);
    if u != t { assert !PendAt(st.threads, u, p).Before?; }
  }

  lemma {:induction false} WayIsFree(st: State, st2: State, t: Tid)
    requires EntersNow(st, st2, t) && ChangesAt(st, st2, t, st.threads[t].p)
    ensures var p := st.threads[t].p; forall u: Tid ::
      && !Writing(PendAt(st.threads, u, p)) && !PendAt(st2.threads, u, p).Before?
      && (st.threads[t].mode != Reader ==> !Reading(PendAt(st.threads, u, p)))
      && (u != t ==> PendAt(st2.threads, u, p) == PendAt(st.threads, u, p))
  {
    var p := st.threads[t].p;
    forall u: Tid ensures
      && !Writing(PendAt(st.threads, u, p)) && !PendAt(st2.threads, u, p).Before?
      && (st.threads[t].mode != Reader ==> !Reading(PendAt(st.threads, u, p)))
      && (u != t ==> PendAt(st2.threads, u, p) == PendAt(st.threads, u, p)) {
      WayFreeAt(st, st2, t, u);
    }
  }

  lemma {:induction false} ReaderReads(st: State, st2: State, t: Tid)
    requires EntersNow(st, st2, t) && Inv(st)
    ensures (st.threads[t].mode == Reader) == st.threads[t].k.e.ReadIt?
  {
    ThreadOk(st, t);
  }

  lemma {:induction false} BothUnique(st: State, st2: State, t: Tid)
    requires EntersNow(st, st2, t) && ChangesAt(st, st2, t, st.threads[t].p) && st2.s == st.s
    ensures var p := st.threads[t].p; p in st.s.tab && Unique(st.threads, p) && Unique(st2.threads, p)
  {
    VisitedExists(st, t);
    UniqueAt(st, st.threads[t].p);
    UniqueAt(st2, st.threads[t].p);
  }

  lemma {:induction false} BecomesWithin(st: State, st2: State, t: Tid)
    requires EntersNow(st, st2, t) && ChangesAt(st, st2, t, st.threads[t].p) && st2.s == st.s
    ensures var p := st.threads[t].p; var f := st.s.tab[p];
      && Outer(st2.threads, p, f) == Outer(st.threads, p, f)
      && Expect(st2.threads, st2.s, st2.threads[t]) == Expect(st.threads, st.s, st.threads[t])
  {
    var p := st.threads[t].p;
    var f := st.s.tab[p];
    WayIsFree(st, st2, t);
    ReaderReads(st, st2, t);
    BothUnique(st, st2, t);
    EnterPending(st.threads, st2.threads, p, f, t);
  }

  lemma {:induction false} EnterPending(a: seq<PC>, b: seq<PC>, p: Path, f: FileState, t: Tid)
    requires Unique(a, p) && Unique(b, p)
    requires forall u: Tid ::
      && !Writing(PendAt(a, u, p)) && !PendAt(b, u, p).Before?
      && (u != t ==> PendAt(a, u, p) == PendAt(b, u, p))
    requires PendAt(a, t, p).Before? && PendAt(b, t, p) == Within(PendAt(a, t, p).e)
    requires !PendAt(a, t, p).e.ReadIt? ==> forall u: Tid :: !Reading(PendAt(a, u, p))
    ensures Outer(b, p, f) == Outer(a, p, f)
    ensures Apply(PendAt(a, t, p).e, p, Inner(a, p, f)).1 == Apply(PendAt(a, t, p).e, p, f).1
  {
    OuterOfNext(a, p, f, t);
    if PendAt(a, t, p).e.ReadIt? {
      EnterReaders(a, b, p, f, t);
    } else {
      InnerOfWriter(b, p, f, t);
    }
  }

  /** One more reader inside. */
  lemma {:induction false} EnterReaders(a: seq<PC>, b: seq<PC>, p: Path, f: FileState, t: Tid)
    requires forall u: Tid :: !Writing(PendAt(a, u, p)) && !Writing(PendAt(b, u, p))
    requires forall u: Tid :: u != t ==> PendAt(a, u, p) == PendAt(b, u, p)
    requires PendAt(a, t, p).Before? && Reading(PendAt(b, t, p)) && PendAt(a, t, p).e == PendAt(b, t, p).e
    ensures var e := PendAt(a, t, p).e;
      && Inner(b, p, f) == Apply(e, p, Inner(a, p, f)).0
      && Apply(e, p, Inner(a, p, f)).1 == Apply(e, p, f).1
  {
    var c := PendAt(a, t, p).e.c;
    var g := Inner(a, p, f);
    assert g == f || g == f.(canWrite := NOBODY);
    if ReadOk(f, c) {
      assert Reading(PendAt(b, t, p)) && ReadOk(f, PendAt(b, t, p).e.c);
    } else if u: Tid :| Reading(PendAt(a, u, p)) && ReadOk(f, PendAt(a, u, p).e.c) {
      assert u != t && Reading(PendAt(b, u, p)) && ReadOk(f, PendAt(b, u, p).e.c);
    } else {
      forall u: Tid ensures !(Reading(PendAt(b, u, p)) && ReadOk(f, PendAt(b, u, p).e.c)) {
        assert u != t ==> PendAt(a, u, p) == PendAt(b, u, p);
      }
    }
  }

  lemma {:induction false} WaiterGoesOn(st: State, st2: State, t: Tid, s0: Store)
    requires Shape(s0) && Agrees(st, s0) && WaiterAgrees(st, s0, t)
    requires t < |st.threads| && |st2.threads| == |st.threads| && Waits(st.threads[t]) && Waits(st2.threads[t])
    requires st2.threads[t].i == st.threads[t].i && st2.threads[t].p == st.threads[t].p && st2.hist == st.hist
    requires st2.threads[t].p in st.s.tab && st2.threads[t].p in st2.s.tab
    requires Expect(st2.threads, st2.s, st2.threads[t]) == Expect(st.threads, st.s, st.threads[t])
    ensures WaiterAgrees(st2, s0, t)
  {
  }

  /** A thread without the overall mutex makes a step, and what the store will be stays the same. */
  lemma {:induction false} AgreesAgain(st: State, st2: State, t: Tid, s0: Store)
    requires Shape(s0) && Moves(st, st2, t) && Agrees(st, s0) && st2.hist == st.hist && st2.results == st.results
    requires st2.overall == st.overall && st2.overall != Some(t)
    requires Flush(st2.threads, st2.s) == Flush(st.threads, st.s)
    requires OthersAgree(st2, s0, t) && WaiterAgrees(st2, s0, t)
    ensures Agrees(st2, s0)
  {
    OwnerElsewhere(st, st2, t, s0);
  }

  lemma {:induction false} EnterFlush(st: State, st2: State, t: Tid)
    requires EntersNow(st, st2, t) && ChangesAt(st, st2, t, st.threads[t].p) && st2.s == st.s
    ensures Flush(st2.threads, st2.s) == Flush(st.threads, st.s)
  {
    BecomesWithin(st, st2, t);
    FlushBut(st, st2, t, st.threads[t].p);
  }

  lemma {:induction false} EnterAgrees(st: State, st2: State, t: Tid, s0: Store)
    requires Shape(s0) && Moves(st, st2, t) && Agrees(st, s0) && SameWork(st, st2) && EntersNow(st, st2, t)
    requires st2.overall == st.overall && st2.results == st.results
    ensures Agrees(st2, s0)
  {
    OwnerIs(st, t);
    NobodyNext(st, t);
    BecomesWithin(st, st2, t);
    WaiterGoesOn(st, st2, t, s0);
    OthersKeptAt(st, st2, t, st.threads[t].p, s0);
    EnterFlush(st, st2, t);
    AgreesAgain(st, st2, t, s0);
  }

  // ---------- it does its work ----------

  ghost predicate DeliversNow(st: State, st2: State, t: Tid) {
    (&& t < |st.threads| && |st2.threads| == |st.threads|
     && Waits(st.threads[t]) && st.threads[t].k.Deliverable? && st.threads[t].ph == Body && st.threads[t].p in st.s.tab
     && var pc := st.threads[t]; var (f, r) := Apply(pc.k.e, pc.p, st.s.tab[pc.p]);
        st2.threads[t] == pc.(k := Answer(r), ph := ExitLock) && st2.s == st.s.(tab := st.s.tab[pc.p := f])) == true
  }

  /** The effect moves from the pending ones into the file, and the other threads see no difference. */
  lemma {:induction false} DeliverPending(a: seq<PC>, b: seq<PC>, p: Path, f: FileState, t: Tid)
    requires Unique(a, p) && Unique(b, p)
    requires PendAt(a, t, p).Within? && PendAt(b, t, p).Nothing?
    requires forall u: Tid :: u != t ==> PendAt(a, u, p) == PendAt(b, u, p)
    ensures var g := Apply(PendAt(a, t, p).e, p, f).0;
      && Inner(b, p, g) == Inner(a, p, f)
      && (forall u: Tid :: PendAt(b, u, p).Within? ==>
        Apply(PendAt(b, u, p).e, p, g).1 == Apply(PendAt(b, u, p).e, p, f).1)
  {
    var e := PendAt(a, t, p).e;
    var g := Apply(e, p, f).0;
    forall u: Tid ensures PendAt(b, u, p).Within? ==> Reading(PendAt(b, u, p)) && e.ReadIt? {
      assert u != t ==> PendAt(a, u, p) == PendAt(b, u, p);
    }
    if e.ReadIt? {
      DeliverReader(a, b, p, f, t);
    } else {
      InnerOfWriter(a, p, f, t);
    }
  }

  lemma {:induction false} DeliverReader(a: seq<PC>, b: seq<PC>, p: Path, f: FileState, t: Tid)
    requires forall u: Tid :: !Writing(PendAt(a, u, p))
    requires Reading(PendAt(a, t, p)) && PendAt(b, t, p).Nothing?
    requires forall u: Tid :: u != t ==> PendAt(a, u, p) == PendAt(b, u, p)
    ensures Inner(b, p, Apply(PendAt(a, t, p).e, p, f).0) == Inner(a, p, f)
  {
    var g := Apply(PendAt(a, t, p).e, p, f).0;
    forall u: Tid ensures !Writing(PendAt(b, u, p)) {
      assert u != t ==> PendAt(a, u, p) == PendAt(b, u, p);
    }
    if u: Tid :| Reading(PendAt(b, u, p)) && ReadOk(g, PendAt(b, u, p).e.c) {
      assert u != t && PendAt(a, u, p) == PendAt(b, u, p) && ReadOk(f, PendAt(a, u, p).e.c);
    } else if ReadOk(f, PendAt(a, t, p).e.c) {
    } else {
      forall u: Tid ensures !(Reading(PendAt(a, u, p)) && ReadOk(f, PendAt(a, u, p).e.c)) {
        assert u != t ==> PendAt(a, u, p) == PendAt(b, u, p);
        assert !(Reading(PendAt(b, u, p)) && ReadOk(g, PendAt(b, u, p).e.c));
      }
    }
  }

  lemma {:induction false} OuterFromInner(a: seq<PC>, b: seq<PC>, p: Path, f: FileState, g: FileState, t: Tid)
    requires Unique(a, p) && Unique(b, p) && Inner(b, p, g) == Inner(a, p, f)
    requires !PendAt(a, t, p).Before? && !PendAt(b, t, p).Before?
    requires forall u: Tid :: u != t ==> PendAt(a, u, p) == PendAt(b, u, p)
    ensures Outer(b, p, g) == Outer(a, p, f)
  {
    if u: Tid :| PendAt(a, u, p).Before? {
      assert u != t && PendAt(b, u, p).Before?;
      OuterOfNext(a, p, f, u);
      OuterOfNext(b, p, g, u);
    }
  }

  lemma {:induction false} Delivers(st: State, st2: State, t: Tid)
    requires Moves(st, st2, t) && DeliversNow(st, st2, t)
    ensures var p := st.threads[t].p;
      && p in st2.s.tab
      && Inner(st2.threads, p, st2.s.tab[p]) == Inner(st.threads, p, st.s.tab[p])
      && Outer(st2.threads, p, st2.s.tab[p]) == Outer(st.threads, p, st.s.tab[p])
      && (forall u: Tid :: PendAt(st2.threads, u, p).Within? ==>
           Apply(PendAt(st2.threads, u, p).e, p, st2.s.tab[p]).1 ==
             Apply(PendAt(st2.threads, u, p).e, p, st.s.tab[p]).1)
  {
    var p := st.threads[t].p;
    assert st.sync.Keys == st.s.tab.Keys && st2.sync.Keys == st2.s.tab.Keys && p in st2.s.tab.Keys;
    InvUnique(st, p);
    InvUnique(st2, p);
    DeliverPending(st.threads, st2.threads, p, st.s.tab[p], t);
    OuterFromInner(st.threads, st2.threads, p, st.s.tab[p], st2.s.tab[p], t);
  }

  lemma {:induction false} DeliverElsewhere(st: State, st2: State, t: Tid, q: Path)
    requires Moves(st, st2, t) && DeliversNow(st, st2, t) && q in st2.s.tab && q != st.threads[t].p
    ensures Outer(st2.threads, q, st2.s.tab[q]) == Outer(st.threads, q, st.s.tab[q])
  {
    assert q in st2.s.tab.Keys && st2.s.tab.Keys == st2.sync.Keys;
    InvUnique(st2, q);
    SameOuter(st2.threads, st.threads, q, st2.s.tab[q]);
  }

  lemma {:induction false} DeliverOuter(st: State, st2: State, t: Tid, q: Path)
    requires Moves(st, st2, t) && DeliversNow(st, st2, t) && q in st2.s.tab
    ensures q in st.s.tab && Outer(st2.threads, q, st2.s.tab[q]) == Outer(st.threads, q, st.s.tab[q])
  {
    if q != st.threads[t].p { DeliverElsewhere(st, st2, t, q); } else { Delivers(st, st2, t); }
  }

  lemma {:induction false} DeliverFlush(st: State, st2: State, t: Tid)
    requires Moves(st, st2, t) && DeliversNow(st, st2, t)
    ensures Flush(st2.threads, st2.s) == Flush(st.threads, st.s)
  {
    forall q | q in st2.s.tab ensures Outer(st2.threads, q, st2.s.tab[q]) == Outer(st.threads, q, st.s.tab[q]) {
      DeliverOuter(st, st2, t, q);
    }
    SameFlush(st2.threads, st2.s, st.threads, st.s);
  }

  lemma {:induction false} SameFlush(a: seq<PC>, s: Store, b: seq<PC>, s2: Store)
    requires s == s2.(tab := s.tab) && s.tab.Keys == s2.tab.Keys
    requires forall q :: q in s.tab ==> Outer(a, q, s.tab[q]) == Outer(b, q, s2.tab[q])
    ensures Flush(a, s) == Flush(b, s2)
  {
    MapSame(Flush(a, s).tab, Flush(b, s2).tab);
  }

  lemma {:induction false} MapSame(m: map<Path, FileState>, n: map<Path, FileState>)
    requires m.Keys == n.Keys && forall q :: q in m ==> m[q] == n[q]
    ensures m == n
  {
  }

  /** What another thread expects at the file, or at another one. */
  lemma {:induction false} DeliverSameFile(st: State, st2: State, t: Tid, u: Tid)
    requires Moves(st, st2, t) && DeliversNow(st, st2, t) && u != t && u < |st.threads| && Waits(st.threads[u])
    requires st.threads[u].p == st.threads[t].p && st.threads[u].k.Deliverable?
    ensures st.threads[u].p in st2.s.tab
    ensures Expect(st2.threads, st2.s, st.threads[u]) == Expect(st.threads, st.s, st.threads[u])
  {
    Delivers(st, st2, t);
    var p := st.threads[t].p;
    var d := PendAt(st2.threads, u, p);
    assert d == PendOf(st.threads[u], p);
    assert d.Within? ==> Apply(d.e, p, st2.s.tab[p]).1 == Apply(d.e, p, st.s.tab[p]).1;
  }

  lemma {:induction false} SameExpect(a: seq<PC>, b: seq<PC>, s: Store, s2: Store, pc: PC)
    requires pc.Visit? && pc.k.Deliverable? && pc.p in s.tab && pc.p in s2.tab && s2.tab[pc.p] == s.tab[pc.p]
    requires Unique(a, pc.p) && SamePend(a, b, pc.p)
    ensures Expect(b, s2, pc) == Expect(a, s, pc)
  {
    SameInner(a, b, pc.p, s.tab[pc.p]);
  }

  lemma {:induction false} DeliversElsewhere(st: State, st2: State, t: Tid, q: Path)
    requires DeliversNow(st, st2, t) && st2.threads == st.threads[t := st2.threads[t]]
    requires q != st.threads[t].p && q in st.s.tab
    ensures SamePend(st.threads, st2.threads, q) && q in st2.s.tab && st2.s.tab[q] == st.s.tab[q]
  {
  }

  lemma {:induction false} DeliverOtherFile(st: State, st2: State, t: Tid, u: Tid)
    requires Moves(st, st2, t) && DeliversNow(st, st2, t) && u != t && u < |st.threads| && Waits(st.threads[u])
    requires st.threads[u].p != st.threads[t].p && st.threads[u].p in st.s.tab && st.threads[u].k.Deliverable?
    ensures Expect(st2.threads, st2.s, st.threads[u]) == Expect(st.threads, st.s, st.threads[u])
  {
    UniqueAt(st, st.threads[u].p);
    DeliversElsewhere(st, st2, t, st.threads[u].p);
    SameExpect(st.threads, st2.threads, st.s, st2.s, st.threads[u]);
  }

  lemma {:induction false} DeliverOther(st: State, st2: State, t: Tid, u: Tid)
    requires Moves(st, st2, t) && DeliversNow(st, st2, t) && u != t && u < |st.threads| && Waits(st.threads[u])
    ensures st.threads[u].p in st.s.tab && st.threads[u].p in st2.s.tab
    ensures Expect(st2.threads, st2.s, st.threads[u]) == Expect(st.threads, st.s, st.threads[u])
  {
    VisitedExists(st, u);
    if st.threads[u].k.Deliverable? {
      if st.threads[u].p == st.threads[t].p { DeliverSameFile(st, st2, t, u); }
        else { DeliverOtherFile(st, st2, t, u); }
    }
  }

  lemma {:induction false} DeliverOthers(st: State, st2: State, t: Tid, s0: Store)
    requires Shape(s0) && Moves(st, st2, t) && DeliversNow(st, st2, t) && OthersAgree(st, s0, t) && st2.hist == st.hist
    ensures OthersAgree(st2, s0, t)
  {
    forall u: Tid | u != t ensures WaiterAgrees(st2, s0, u) {
      assert WaiterAgrees(st, s0, u);
      if u < |st.threads| && Waits(st.threads[u]) { DeliverOther(st, st2, t, u); }
    }
  }

  lemma {:induction false} DeliverAgrees(st: State, st2: State, t: Tid, s0: Store)
    requires Shape(s0) && Moves(st, st2, t) && Agrees(st, s0) && DeliversNow(st, st2, t)
    requires st2.hist == st.hist && st2.overall == st.overall && st2.results == st.results
    ensures Agrees(st2, s0)
  {
    OwnerIs(st, t);
    assert WaiterAgrees(st, s0, t);
    DeliverFlush(st, st2, t);
    DeliverOthers(st, st2, t, s0);
    WaiterGoesOn(st, st2, t, s0);
    AgreesAgain(st, st2, t, s0);
  }

  // ---------- the owner of the overall mutex works on files ----------

  /** A file that the owner has to itself. */
  lemma {:induction false} OwnFile(st: State, t: Tid, p: Path)
    requires Inv(st) && t < |st.threads| && Owns(st.threads[t]) && p in st.s.tab
    requires At(st.threads, t, p).asWriter && At(st.threads, t, p).past
    ensures NoPend(st.threads, p)
  {
    assert st.s.tab.Keys == st.sync.Keys;
    assert FilesOk(st);
    assert FileOk(st.sync[p], st.threads, p);
    assert RoleOk(st.sync[p], At(st.threads, t, p), t);
    forall u: Tid ensures PendAt(st.threads, u, p).Nothing? { PendNeeds(st, p, u); }
  }

  /** A file that the owner reads: there may be other readers. */
  lemma {:induction false} ReadFile(st: State, t: Tid, p: Path)
    requires Inv(st) && t < |st.threads| && Owns(st.threads[t]) && p in st.s.tab
    requires At(st.threads, t, p).asReader && At(st.threads, t, p).past
    ensures var f := Outer(st.threads, p, st.s.tab[p]); f == st.s.tab[p] || f == st.s.tab[p].(canWrite := NOBODY)
  {
    assert st.s.tab.Keys == st.sync.Keys;
    assert FilesOk(st);
    assert FileOk(st.sync[p], st.threads, p);
    assert RoleOk(st.sync[p], At(st.threads, t, p), t);
    forall u: Tid ensures PendAt(st.threads, u, p).Nothing?
      || Reading(PendAt(st.threads, u, p)) { PendNeeds(st, p, u); }
    OuterOfReaders(st.threads, p, st.s.tab[p]);
  }

  lemma {:induction false} NoPartNoPend(st: State, t: Tid, p: Path)
    requires t < |st.threads| && Owns(st.threads[t]) && forall u: Tid :: u != t ==> NoPart(st.threads, u, p)
    ensures NoPend(st.threads, p)
  {
    forall u: Tid ensures PendAt(st.threads, u, p).Nothing? { assert u != t ==> NoPart(st.threads, u, p); }
  }

  /** The owner's step as one of the two stores: the same change of the store and of the store with all
      pending effects done, at files without pending effects. */
  ghost predicate OwnerActs(st: State, st2: State, t: Tid) {
    (&& Moves(st, st2, t) && st2.hist == st.hist && st2.results == st.results
     && st.overall == Some(t) && st2.overall == Some(t) && Owns(st.threads[t]) && Owns(st2.threads[t])
     && st2.threads[t].i == st.threads[t].i
     && forall p :: p in st.s.tab ==> NoPend(st.threads, p) || (p in st2.s.tab && st2.s.tab[p] == st.s.tab[p])) == true
  }

  lemma {:induction false} OwnerActsAgrees(st: State, st2: State, t: Tid, s0: Store)
    requires Shape(s0) && OwnerActs(st, st2, t) && Agrees(st, s0)
    requires Found(st.threads[t], Flush(st.threads, st.s)) && Found(st2.threads[t], Flush(st.threads, st2.s))
    requires RestOf(st2.threads[t], Flush(st.threads, st2.s)) == RestOf(st.threads[t], Flush(st.threads, st.s))
    ensures Agrees(st2, s0)
  {
    PendFrame(st.threads, st2.threads, t);
    OwnerStep(st, st2, t, s0);
  }

  ghost predicate OwnerAt(st: State, t: Tid, ph: Phase) {
    (&& Inv(st) && t < |st.threads| && st.threads[t].Visit? && st.threads[t].own && st.threads[t].ph == ph
     && st.threads[t].p in st.s.tab && Found(st.threads[t], st.s)) == true
  }

  /** The checks of an append see the file as it will be. */
  lemma {:induction false} AppendEnterRest(pc: PC, pc2: PC, s: Store, F: Store)
    requires pc.Visit? && pc.own && pc.k.AppendEnter? && Found(pc, F) && Found(pc2, F)
    requires pc.p in s.tab && pc.p in F.tab && F.tab[pc.p] == s.tab[pc.p] && F.maxSize == s.maxSize
    requires pc2 == match AppendCheck(s, s.tab[pc.p], pc.k.content, pc.k.c, pc.k.write)
                    case Some(e) => pc.(k := Answer(Fail(e)), ph := LeaveLate)
                    case None => Holding(pc.i, AppendEvict(pc.p, pc.k.content, []))
    ensures RestOf(pc2, F) == RestOf(pc, F)
  {
  }

  lemma {:induction false} ReadAtRest(pc: PC, pc2: PC, f: FileState, F: Store)
    requires pc.Visit? && pc.own && pc.k.ReadAt? && Found(pc, F) && Found(pc2, F)
    requires pc.p in F.tab && (F.tab[pc.p] == f || F.tab[pc.p] == f.(canWrite := NOBODY))
    requires pc2 == if LockedByOther(f, pc.k.c)
      then pc.(k := ReadNext(pc.k.rest, pc.k.counter, pc.k.c, pc.k.read), ph := ExitLock)
                    else pc.(k := ReadNext(pc.k.rest, pc.k.counter - 1, pc.k.c, [ResultFile(pc.p, f.data, [])] +
                      pc.k.read), ph := ExitLock)
    ensures RestOf(pc2, F) == RestOf(pc, F)
  {
    assert ([pc.p] + pc.k.rest)[1..] == pc.k.rest;
  }

  /** The departure of a client from the file it visits, in store F, gives store F2. */
  ghost predicate DepartsAs(pc: PC, pc2: PC, f: FileState, F: Store, F2: Store) {
    (&& pc.Visit? && pc.own && pc.k.DepartAt? && Found(pc, F) && Found(pc2, F2)
     && pc.p in F.tab && F.tab[pc.p] == f && F2 == F.(tab := F.tab[pc.p := Depart(pc.k.c, f).0])
     && pc2 == Departing(pc, f)) == true
  }

  function Departing(pc: PC, f: FileState): PC
    requires pc.Visit? && pc.k.DepartAt?
  {
    var next := Depart(pc.k.c, f).1;
    pc.(k := DepartNext(pc.k.rest, pc.k.c, if next.Some? then [next.value] + pc.k.gained else pc.k.gained),
      ph := ExitLock)
  }

  /** The rest of the operation, from pc2 on in store F2, is what it was from pc on in store F. */
  ghost predicate RestStays(pc: PC, pc2: PC, F: Store, F2: Store) {
    (Owns(pc) && Owns(pc2) && Found(pc, F) && Found(pc2, F2) && RestOf(pc2, F2) == RestOf(pc, F)) == true
  }

  lemma {:induction false} DepartAtRest(pc: PC, pc2: PC, f: FileState, F: Store, F2: Store)
    requires DepartsAs(pc, pc2, f, F, F2)
    ensures RestStays(pc, pc2, F, F2)
  {
    assert ([pc.p] + pc.k.rest)[1..] == pc.k.rest;
  }

  lemma {:induction false} OwnerAtReady(st: State, t: Tid)
    requires OwnerAt(st, t, Body)
    ensures BodyReady(st, t, st.threads[t]) && Finding(st.threads[t], st.s) && Shape(st.s)
  {
    ThreadOk(st, t);
  }

  lemma {:induction false} BodyFlushed(st: State, t: Tid, pc: PC)
    requires BodyReady(st, t, pc) && Finding(pc, st.s) && Shape(st.s)
    ensures var st2 := BodyStep(st, t, pc);
      Found(st2.threads[t], Flush(st.threads, st2.s)) && Found(pc, Flush(st.threads, st.s))
  {
    BodyFinds(st, t, pc);
    BodyFrame(st, t, pc);
    FlushFinds(pc, st.threads, st.s);
    FlushFinds(BodyStep(st, t, pc).threads[t], st.threads, BodyStep(st, t, pc).s);
  }

  lemma {:induction false} BodyFound(st: State, t: Tid)
    requires OwnerAt(st, t, Body)
    ensures var st2 := BodyStep(st, t, st.threads[t]);
      Found(st2.threads[t], Flush(st.threads, st2.s)) && Found(st.threads[t], Flush(st.threads, st.s))
  {
    OwnerAtReady(st, t);
    BodyFlushed(st, t, st.threads[t]);
  }

  lemma {:induction false} AppendEnterAgrees(st: State, st2: State, t: Tid, s0: Store)
    requires Shape(s0) && Moves(st, st2, t) && Agrees(st, s0) && OwnerAt(st, t, Body) && st.threads[t].k.AppendEnter?
    requires st2 == BodyStep(st, t, st.threads[t])
    ensures Agrees(st2, s0)
  {
    var pc := st.threads[t];
    BodyFound(st, t);
    OwnerIs(st, t);
    OwnBodyFile(st, t);
    AppendEnterRest(pc, st2.threads[t], st.s, Flush(st.threads, st.s));
    OwnerActsAgrees(st, st2, t, s0);
  }

  lemma {:induction false} OwnBodyFile(st: State, t: Tid)
    requires OwnerAt(st, t, Body) && (st.threads[t].mode == Writer || st.threads[t].mode == Quiet)
    ensures var p := st.threads[t].p;
      NoPend(st.threads, p) && forall f :: Outer(st.threads, p, f) == f
  {
    OwnFile(st, t, st.threads[t].p);
  }

  lemma {:induction false} ReadAtAgrees(st: State, st2: State, t: Tid, s0: Store)
    requires Shape(s0) && Moves(st, st2, t) && Agrees(st, s0) && OwnerAt(st, t, Body) && st.threads[t].k.ReadAt?
    requires st2 == BodyStep(st, t, st.threads[t])
    ensures Agrees(st2, s0)
  {
    var pc := st.threads[t];
    BodyFound(st, t);
    OwnerIs(st, t);
    ReadFile(st, t, pc.p);
    ReadAtRest(pc, st2.threads[t], st.s.tab[pc.p], Flush(st.threads, st.s));
    OwnerActsAgrees(st, st2, t, s0);
  }

  lemma {:induction false} FlushUpdate(threads: seq<PC>, s: Store, p: Path, f: FileState)
    requires p in s.tab && forall g :: Outer(threads, p, g) == g
    ensures Flush(threads, s.(tab := s.tab[p := f])) == Flush(threads, s).(tab := Flush(threads, s).tab[p := f])
  {
  }

  lemma {:induction false} DepartAtFlush(st: State, t: Tid)
    requires OwnerAt(st, t, Body) && st.threads[t].k.DepartAt?
    ensures var st2 := BodyStep(st, t, st.threads[t]); var p := st.threads[t].p;
      var F, F2 := Flush(st.threads, st.s), Flush(st.threads, st2.s);
      && p in F.tab && F.tab[p] == st.s.tab[p] && NoPend(st.threads, p)
      && F2 == F.(tab := F.tab[p := Depart(st.threads[t].k.c, st.s.tab[p]).0])
  {
    var pc := st.threads[t];
    ThreadOk(st, t);
    OwnBodyFile(st, t);
    FlushUpdate(st.threads, st.s, pc.p, Depart(pc.k.c, st.s.tab[pc.p]).0);
  }

  lemma {:induction false} DepartAtNext(st: State, t: Tid)
    requires OwnerAt(st, t, Body) && st.threads[t].k.DepartAt?
    ensures var pc := st.threads[t];
      BodyStep(st, t, pc).threads[t] == Departing(pc, st.s.tab[pc.p])
  {
  }

  lemma {:induction false} DepartAtDeparts(st: State, t: Tid)
    requires OwnerAt(st, t, Body) && st.threads[t].k.DepartAt?
    ensures var pc := st.threads[t]; var st2 := BodyStep(st, t, pc);
      DepartsAs(pc, st2.threads[t], st.s.tab[pc.p], Flush(st.threads, st.s), Flush(st.threads, st2.s))
  {
    BodyFound(st, t);
    DepartAtNext(st, t);
    DepartAtFlush(st, t);
  }

  lemma {:induction false} DepartAtGoesOn(st: State, t: Tid)
    requires OwnerAt(st, t, Body) && st.threads[t].k.DepartAt?
    ensures var pc := st.threads[t]; var st2 := BodyStep(st, t, pc);
      RestStays(pc, st2.threads[t], Flush(st.threads, st.s), Flush(st.threads, st2.s))
  {
    var pc := st.threads[t];
    var f := st.s.tab[pc.p];
    var st2 := BodyStep(st, t, pc);
    var pc2 := st2.threads[t];
    DepartAtDeparts(st, t);
    DepartAtRest(pc, pc2, f, Flush(st.threads, st.s), Flush(st.threads, st2.s));
  }

  lemma {:induction false} DepartsAlone(st: State, t: Tid)
    requires OwnerAt(st, t, Body) && st.threads[t].k.DepartAt?
    ensures NoPend(st.threads, st.threads[t].p)
  {
    ThreadOk(st, t);
    OwnBodyFile(st, t);
  }

  lemma {:induction false} DepartAtFields(st: State, t: Tid, pc: PC)
    requires t < |st.threads| && pc == st.threads[t] && pc.Visit? && pc.own && pc.k.DepartAt? && pc.p in st.s.tab
    ensures var st2 := BodyStep(st, t, pc);
      && st2.hist == st.hist && st2.results == st.results && st2.overall == st.overall
      && Owns(st2.threads[t]) && st2.threads[t].i == pc.i
      && st2.s.tab.Keys == st.s.tab.Keys && forall q :: q in st.s.tab && q != pc.p ==> st2.s.tab[q] == st.s.tab[q]
  {
  }

  lemma {:induction false} DepartAtActs(st: State, st2: State, t: Tid)
    requires Moves(st, st2, t) && OwnerAt(st, t, Body) && st.threads[t].k.DepartAt?
    requires st2 == BodyStep(st, t, st.threads[t])
    ensures OwnerActs(st, st2, t)
  {
    OwnerIs(st, t);
    DepartsAlone(st, t);
    DepartAtFields(st, t, st.threads[t]);
  }

  lemma {:induction false} SameRestAgrees(st: State, st2: State, t: Tid, s0: Store)
    requires Shape(s0) && OwnerActs(st, st2, t) && Agrees(st, s0)
    requires RestStays(st.threads[t], st2.threads[t], Flush(st.threads, st.s), Flush(st.threads, st2.s))
    ensures Agrees(st2, s0)
  {
    OwnerActsAgrees(st, st2, t, s0);
  }

  lemma {:induction false} DepartAtAgrees(st: State, st2: State, t: Tid, s0: Store)
    requires Shape(s0) && Moves(st, st2, t) && Agrees(st, s0) && OwnerAt(st, t, Body) && st.threads[t].k.DepartAt?
    requires st2 == BodyStep(st, t, st.threads[t])
    ensures Agrees(st2, s0)
  {
    DepartAtGoesOn(st, t);
    DepartAtActs(st, st2, t);
    SameRestAgrees(st, st2, t, s0);
  }

  /** The eviction of a file, seen on the store with all pending effects done. */
  lemma {:induction false} FlushWithout(threads: seq<PC>, s: Store, s2: Store, v: Path)
    requires s2.tab == s.tab - {v}
    ensures Flush(threads, s2).tab == Flush(threads, s).tab - {v}
  {
  }

  lemma {:induction false} FlushAt(threads: seq<PC>, s: Store, p: Path)
    requires Shape(s) && p in s.tab && NoPend(threads, p)
    ensures Shape(Flush(threads, s)) && p in Flush(threads, s).tab && Flush(threads, s).tab[p] == s.tab[p]
  {
    OuterOfNone(threads, p, s.tab[p]);
  }

  /** Dropping a file depends on its own state and on nothing else in the index. */
  lemma {:induction false} DropLike(s: Store, F: Store, G: Store, v: Path)
    requires Shape(s) && Shape(F) && v in s.tab && v !in s.order && v in F.tab
    requires F == s.(tab := F.tab) && F.tab[v] == s.tab[v] && G == Drop(s, v).0.(tab := F.tab - {v})
    ensures Drop(F, v) == (G, Drop(s, v).1)
  {
  }

  lemma {:induction false} FlushIs(threads: seq<PC>, s: Store)
    ensures Flush(threads, s) == s.(tab := Flush(threads, s).tab)
  {
  }

  lemma {:induction false} FlushDrop(threads: seq<PC>, s: Store, v: Path)
    requires Shape(s) && v in s.tab && v !in s.order && NoPend(threads, v)
    ensures Shape(Flush(threads, s)) && v in Flush(threads, s).tab
    ensures Drop(Flush(threads, s), v) == (Flush(threads, Drop(s, v).0), Drop(s, v).1)
  {
    var F, d := Flush(threads, s), Drop(s, v).0;
    FlushAt(threads, s, v);
    FlushIs(threads, s);
    FlushIs(threads, d);
    FlushWithout(threads, s, d, v);
    DropLike(s, F, Flush(threads, d), v);
  }

  lemma {:induction false} VictimRest(pc: PC, pc2: PC, F: Store)
    requires pc.Visit? && pc.own && (pc.k.OpenVictim? || pc.k.AppendVictim?) && Found(pc, F)
    requires Shape(F) && pc.p in F.tab && pc.p !in F.order
    requires var (s1, rf) := Drop(F, pc.p); Found(pc2, s1)
    requires pc2 == Holding(pc.i, if pc.k.OpenVictim? then OpenCreate(pc.k.q, pc.k.c, pc.k.lock, Some(Drop(F, pc.p).1))
                                  else AppendEvict(pc.k.q, pc.k.content, [Drop(F, pc.p).1] + pc.k.acc))
    ensures RestOf(pc2, Drop(F, pc.p).0) == RestOf(pc, F)
  {
  }

  lemma {:induction false} VictimNoPend(st: State, t: Tid, woken: bool)
    requires OwnerAt(st, t, Check(woken)) && Enabled(st, t)
    requires st.threads[t].mode == Victim && !Blocked(Victim, st.sync[st.threads[t].p])
    ensures NoPend(st.threads, st.threads[t].p)
  {
    ThreadOk(st, t);
    VictimAlone(st, t, woken);
    NoPartNoPend(st, t, st.threads[t].p);
  }

  lemma {:induction false} VictimGoesOn(st: State, st2: State, t: Tid, woken: bool)
    requires Moves(st, st2, t) && OwnerAt(st, t, Check(woken)) && Enabled(st, t)
    requires st.threads[t].mode == Victim && !Blocked(Victim, st.sync[st.threads[t].p])
    requires st2 == CheckStep(st, t, st.threads[t]) && NoPend(st.threads, st.threads[t].p)
    ensures Owns(st2.threads[t])
    ensures Found(st.threads[t], Flush(st.threads, st.s)) && Found(st2.threads[t], Flush(st.threads, st2.s))
    ensures RestOf(st2.threads[t], Flush(st.threads, st2.s)) == RestOf(st.threads[t], Flush(st.threads, st.s))
  {
    var pc := st.threads[t];
    ThreadOk(st, t);
    ThreadOk(st2, t);
    FlushDrop(st.threads, st.s, pc.p);
    FlushFinds(pc, st.threads, st.s);
    FlushFinds(st2.threads[t], st.threads, st2.s);
    VictimRest(pc, st2.threads[t], Flush(st.threads, st.s));
  }

  lemma {:induction false} VictimAgrees(st: State, st2: State, t: Tid, woken: bool, s0: Store)
    requires Shape(s0) && Moves(st, st2, t) && Agrees(st, s0) && OwnerAt(st, t, Check(woken))
    requires Enabled(st, t) && st.threads[t].mode == Victim && !Blocked(Victim, st.sync[st.threads[t].p])
    requires st2 == CheckStep(st, t, st.threads[t])
    ensures Agrees(st2, s0)
  {
    VictimNoPend(st, t, woken);
    VictimGoesOn(st, st2, t, woken);
    OwnerIs(st, t);
    OwnerActsAgrees(st, st2, t, s0);
  }

  // ---------- code between visits, seen on the store with all pending effects done ----------

  lemma {:induction false} FlushTouch(threads: seq<PC>, s: Store, p: Path)
    requires Shape(s) && p in s.tab && p in s.order
    ensures Shape(Flush(threads, s)) && Touch(Flush(threads, s), p) == Flush(threads, Touch(s, p))
  {
  }

  lemma {:induction false} FlushCreate(threads: seq<PC>, s: Store, p: Path, writer: Client)
    requires Shape(s) && p !in s.tab && NoPend(threads, p)
    ensures Shape(Flush(threads, s)) && p !in Flush(threads, s).tab
    ensures Create(Flush(threads, s), p, writer) == Flush(threads, Create(s, p, writer))
  {
    OuterOfNone(threads, p, NewFile(writer));
    MapAdd(Flush(threads, s).tab, Flush(threads, Create(s, p, writer)).tab, p);
  }

  lemma {:induction false} MapAdd(m: map<Path, FileState>, n: map<Path, FileState>, p: Path)
    requires p !in m && n.Keys == m.Keys + {p} && forall q :: q in m ==> n[q] == m[q]
    ensures n == m[p := n[p]]
  {
  }

  lemma {:induction false} FlushCommit(threads: seq<PC>, s: Store, p: Path, content: string)
    requires Shape(s) && p in s.tab && p in s.order && forall g :: Outer(threads, p, g) == g
    ensures Shape(Flush(threads, s)) && p in Flush(threads, s).tab
    ensures AppendCommit(Flush(threads, s), p, content) == Flush(threads, AppendCommit(s, p, content))
  {
    var f := s.tab[p];
    var s1 := s.(tab := s.tab[p := f.(data := f.data + content, canWrite := NOBODY)],
                 size := s.size + |content|, maxBytes := Max(s.size + |content|, s.maxBytes));
    FlushUpdate(threads, s, p, f.(data := f.data + content, canWrite := NOBODY));
    FlushTouch(threads, s1, p);
  }

  /** So does a remove. */
  lemma {:induction false} RemoveLike(s: Store, F: Store, p: Path, c: Client)
    requires Shape(s) && Shape(F) && p in s.tab && p in s.order && p in F.tab
    requires F == s.(tab := F.tab) && F.tab[p] == s.tab[p]
    ensures var (t, r) := RemoveInside(s, p, c);
      RemoveInside(F, p, c) == (t.(tab := if r.Removed? then F.tab - {p} else F.tab), r)
  {
  }

  lemma {:induction false} FlushRemove(threads: seq<PC>, s: Store, p: Path, c: Client)
    requires Shape(s) && p in s.tab && p in s.order && NoPend(threads, p)
    ensures Shape(Flush(threads, s)) && p in Flush(threads, s).tab
    ensures RemoveInside(Flush(threads, s), p, c) == (Flush(threads, RemoveInside(s, p, c).0), RemoveInside(s, p, c).1)
  {
    var (t, r) := RemoveInside(s, p, c);
    FlushAt(threads, s, p);
    FlushIs(threads, s);
    FlushIs(threads, t);
    RemoveLike(s, Flush(threads, s), p, c);
    if r.Removed? { FlushWithout(threads, s, t, p); } else { assert t == s; }
  }

  /** What Exec does for an operation that starts with a visit of one file. */
  lemma {:induction false} EnterRest(threads: seq<PC>, s: Store, p: Path, e: Effect, F: Store)
    requires Shape(s) && AllListed(s) && F == Flush(threads, s)
    ensures Shape(F) && (p in F.tab <==> p in s.tab)
    ensures p in s.tab ==>
      p in s.order && p in F.tab && Shape(Flush(threads, Touch(s, p)))
        && Enter(F, p, e) == Deliver(Flush(threads, Touch(s, p)), p, e)
    ensures p !in s.tab ==> Enter(F, p, e) == (F, Fail(FileNotFound))
  {
    if p in s.tab { FlushTouch(threads, s, p); }
  }

  /** The owner of the overall mutex with something to do, and what it makes of the store. */
  ghost predicate HoldsAt(st: State, t: Tid, i: nat, k: Cont) {
    (&& Inv(st) && t < |st.threads| && st.threads[t] == Holding(i, k) && Shape(st.s) && CanHold(st.s, k)
      && AllListed(st.s)
     && CanHold(Flush(st.threads, st.s), k)) == true
  }

  lemma {:induction false} HoldsAtStart(st: State, t: Tid, i: nat, k: Cont)
    requires Inv(st) && Enabled(st, t) && st.threads[t] == Holding(i, k)
    ensures HoldsAt(st, t, i, k)
  {
    HolderSeesAll(st, t);
    FlushFinds(st.threads[t], st.threads, st.s);
  }

  lemma {:induction false} StartTouchRest(threads: seq<PC>, s: Store, pc2: PC, s2: Store, i: nat, p: Path, mode: Mode,
      e: Effect)
    requires Shape(s) && AllListed(s)
    requires if p !in s.tab then pc2 == Holding(i, Answer(Fail(FileNotFound))) && s2 == s
             else p in s.order && s2 == Touch(s, p) && pc2 == Visit(i, true, p, mode, Deliverable(e), WantOrd)
    requires Found(pc2, Flush(threads, s2))
    ensures Shape(Flush(threads, s)) && RestOf(pc2, Flush(threads, s2)) == Enter(Flush(threads, s), p, e)
  {
    EnterRest(threads, s, p, e, Flush(threads, s));
  }

  /** What is left after the first piece of an operation, and that the piece touched no file. */
  ghost predicate BeganAs(st: State, st2: State, t: Tid, op: Op, F: Store)
    requires t < |st.threads| && |st2.threads| == |st.threads| && Shape(F) && st.threads[t].Holding?
  {
    && st2.s.tab == st.s.tab && st2.hist == st.hist && st2.results == st.results
    && Owns(st2.threads[t]) && st2.threads[t].i == st.threads[t].i
    && (Found(st2.threads[t], Flush(st.threads, st2.s)) ==>
      RestOf(st2.threads[t], Flush(st.threads, st2.s)) == Exec(F, op))
  }

  ghost predicate StartedAs(st: State, t: Tid, op: Op, F: Store)
    requires t < |st.threads| && Shape(st.s) && AllListed(st.s) && Shape(F)
    requires st.threads[t].Holding?
  {
    BeganAs(st, StartStep(st, t, st.threads[t].i, op), t, op, F)
  }

  ghost predicate Starts(st: State, t: Tid, op: Op, F: Store) {
    && t < |st.threads| && st.threads[t].Holding? && Shape(st.s) && AllListed(st.s) && ValidArgs(op)
    && F == Flush(st.threads, st.s) && Shape(F)
  }

  lemma {:induction false} StartOneFile(st: State, t: Tid, op: Op, p: Path, mode: Mode, e: Effect, F: Store)
    requires Starts(st, t, op, F)
    requires StartStep(st, t, st.threads[t].i, op) == TouchAndVisit(st, t, st.threads[t].i, p, mode, e)
    requires Exec(F, op) == Enter(F, p, e)
    ensures StartedAs(st, t, op, F)
  {
    var st2 := TouchAndVisit(st, t, st.threads[t].i, p, mode, e);
    if Found(st2.threads[t], Flush(st.threads, st2.s)) {
      StartTouchRest(st.threads, st.s, st2.threads[t], st2.s, st.threads[t].i, p, mode, e);
    }
  }

  lemma {:induction false} StartAnswers(st: State, t: Tid, op: Op, r: Reply, F: Store)
    requires Starts(st, t, op, F)
    requires StartStep(st, t, st.threads[t].i, op) == Put(st, t, Holding(st.threads[t].i, Answer(r)))
    requires Exec(F, op) == (F, r)
    ensures StartedAs(st, t, op, F)
  {
    var pc2 := Holding(st.threads[t].i, Answer(r));
    if Found(pc2, F) { RestIsAnswer(pc2, F); }
  }

  /** It begins with a visit, or with code that is not a visit. */
  lemma {:induction false} StartGoesOn(st: State, t: Tid, op: Op, s2: Store, pc2: PC, F: Store)
    requires Starts(st, t, op, F)
    requires StartStep(st, t, st.threads[t].i, op) == Put(st.(s := s2), t, pc2)
    requires s2.tab == st.s.tab && Owns(pc2) && pc2.i == st.threads[t].i
    requires Found(pc2, Flush(st.threads, s2)) ==> RestOf(pc2, Flush(st.threads, s2)) == Exec(F, op)
    ensures StartedAs(st, t, op, F)
  {
  }

  lemma {:induction false} OpenEvictRest(pc2: PC, s: Store, F: Store, F2: Store, p: Path, flags: int, c: Client)
    requires Shape(s) && Shape(F) && F == s.(tab := F.tab) && F.tab.Keys == s.tab.Keys
    requires p !in s.tab && HasCreate(flags) && s.num == s.maxFiles && Pick(s, None).Some?
    requires var (v, s1) := Pick(s, None).value;
      F2 == s1.(tab := F.tab) && pc2.Visit? && pc2.own && pc2.p == v && pc2.k == OpenVictim(p, c, HasLock(flags))
    requires Found(pc2, F2)
    ensures RestOf(pc2, F2) == ExecOpen(F, p, flags, c)
  {
    assert Pick(F, None) == Some((Pick(s, None).value.0, F2));
  }

  lemma {:induction false} StartOpenEvicts(st: State, t: Tid, p: Path, flags: int, c: Client, F: Store)
    requires Starts(st, t, Open(p, flags, c), F)
    requires p !in st.s.tab && HasCreate(flags) && st.s.num == st.s.maxFiles && Pick(st.s, None).Some?
    ensures StartedAs(st, t, Open(p, flags, c), F)
  {
    var (v, s1) := Pick(st.s, None).value;
    var pc2 := Visit(st.threads[t].i, true, v, Victim, OpenVictim(p, c, HasLock(flags)), WantOrd);
    if Found(pc2, Flush(st.threads, s1)) {
      OpenEvictRest(pc2, st.s, F, Flush(st.threads, s1), p, flags, c);
    }
    StartGoesOn(st, t, Open(p, flags, c), s1, pc2, F);
  }

  lemma {:induction false} StartOpenCreates(st: State, t: Tid, p: Path, flags: int, c: Client, F: Store)
    requires Starts(st, t, Open(p, flags, c), F)
    requires p !in st.s.tab && HasCreate(flags) && st.s.num != st.s.maxFiles
    ensures StartedAs(st, t, Open(p, flags, c), F)
  {
    StartGoesOn(st, t, Open(p, flags, c), st.s, Holding(st.threads[t].i, OpenCreate(p, c, HasLock(flags), None)), F);
  }

  lemma {:induction false} StartOpen(st: State, t: Tid, p: Path, flags: int, c: Client, F: Store)
    requires Starts(st, t, Open(p, flags, c), F)
    ensures StartedAs(st, t, Open(p, flags, c), F)
  {
    if p in st.s.tab && HasCreate(flags) {
      StartAnswers(st, t, Open(p, flags, c), Fail(FileAlreadyIn), F);
    } else if p in st.s.tab {
      StartOneFile(st, t, Open(p, flags, c), p, Writer, OpenIt(c, HasLock(flags), true, None), F);
    } else if !HasCreate(flags) {
      StartAnswers(st, t, Open(p, flags, c), Fail(FileNotFound), F);
    } else if st.s.num != st.s.maxFiles {
      StartOpenCreates(st, t, p, flags, c, F);
    } else if Pick(st.s, None).Some? {
      StartOpenEvicts(st, t, p, flags, c, F);
    } else {
      StartAnswers(st, t, Open(p, flags, c), Fail(FailedEvict), F);
    }
  }

  lemma {:induction false} StartReadN(st: State, t: Tid, n: int, c: Client, F: Store)
    requires Starts(st, t, ReadN(n, c), F)
    ensures StartedAs(st, t, ReadN(n, c), F)
  {
    StartGoesOn(st, t, ReadN(n, c), st.s,
      Holding(st.threads[t].i, ReadNext(st.s.order, ReadLimit(n, |st.s.order|), c, [])), F);
  }

  lemma {:induction false} StartEvictClient(st: State, t: Tid, c: Client, F: Store)
    requires Starts(st, t, EvictClient(c), F)
    ensures StartedAs(st, t, EvictClient(c), F)
  {
    StartGoesOn(st, t, EvictClient(c), st.s, Holding(st.threads[t].i, DepartNext(st.s.order, c, [])), F);
  }

  lemma {:induction false} StartAppend(st: State, t: Tid, p: Path, content: string, c: Client, write: bool, F: Store)
    requires Starts(st, t, Append(p, content, c, write), F)
    ensures StartedAs(st, t, Append(p, content, c, write), F)
  {
    if |content| >= st.s.maxSize {
      StartAnswers(st, t, Append(p, content, c, write), Fail(ExceededSize), F);
    } else if p !in st.s.tab {
      StartAnswers(st, t, Append(p, content, c, write), Fail(FileNotFound), F);
    } else {
      StartGoesOn(st, t, Append(p, content, c, write), st.s,
        Visit(st.threads[t].i, true, p, Writer, AppendEnter(content, c, write), WantOrd), F);
    }
  }

  lemma {:induction false} RemoveRest(pc2: PC, F: Store, c: Client)
    requires Found(pc2, F) && pc2.Visit? && pc2.own && pc2.k == RemoveAt(c) && Shape(F)
    ensures RestOf(pc2, F) == ExecRemove(F, pc2.p, c)
  {
  }

  lemma {:induction false} RemoveVisitRest(i: nat, p: Path, c: Client, F: Store)
    requires Shape(F) && p in F.tab
    ensures var pc2 := Visit(i, true, p, Probe, RemoveAt(c), WantOrd);
      Found(pc2, F) ==> RestOf(pc2, F) == Exec(F, Remove(p, c))
  {
    var pc2 := Visit(i, true, p, Probe, RemoveAt(c), WantOrd);
    if Found(pc2, F) { RemoveRest(pc2, F, c); }
  }

  lemma {:induction false} StartRemove(st: State, t: Tid, p: Path, c: Client, F: Store)
    requires Starts(st, t, Remove(p, c), F)
    ensures StartedAs(st, t, Remove(p, c), F)
  {
    if p !in st.s.tab {
      StartAnswers(st, t, Remove(p, c), Fail(FileNotFound), F);
    } else {
      var pc2 := Visit(st.threads[t].i, true, p, Probe, RemoveAt(c), WantOrd);
      RemoveVisitRest(st.threads[t].i, p, c, F);
      StartGoesOn(st, t, Remove(p, c), st.s, pc2, F);
    }
  }

  lemma {:induction false} StartRest(st: State, t: Tid, op: Op, F: Store)
    requires Starts(st, t, op, F)
    ensures StartedAs(st, t, op, F)
  {
    match op
    case Open(p, flags, c) => StartOpen(st, t, p, flags, c, F);
    case Read(p, c) => StartOneFile(st, t, op, p, Reader, ReadIt(c), F);
    case Lock(p, c) => StartOneFile(st, t, op, p, Writer, LockIt(c), F);
    case Unlock(p, c) => StartOneFile(st, t, op, p, Writer, UnlockIt(c), F);
    case Close(p, c) => StartOneFile(st, t, op, p, Writer, CloseIt(c), F);
    case ReadN(n, c) => StartReadN(st, t, n, c, F);
    case Append(p, content, c, write) => StartAppend(st, t, p, content, c, write, F);
    case Remove(p, c) => StartRemove(st, t, p, c, F);
    case EvictClient(c) => StartEvictClient(st, t, c, F);
  }

  // ---------- every step between visits ----------

  lemma {:induction false} BeganAgrees(st: State, st2: State, t: Tid, i: nat, op: Op, s0: Store)
    requires Shape(s0) && Moves(st, st2, t) && Agrees(st, s0) && HoldsAt(st, t, i, Start(op))
    requires BeganAs(st, st2, t, op, Flush(st.threads, st.s))
    ensures Agrees(st2, s0)
  {
    HoldFound(st, st2, t, i, Start(op));
    HoldActs(st, st2, t);
    OwnerActsAgrees(st, st2, t, s0);
  }

  lemma {:induction false} StartAgrees(st: State, st2: State, t: Tid, i: nat, op: Op, s0: Store)
    requires Shape(s0) && Moves(st, st2, t) && Agrees(st, s0) && HoldsAt(st, t, i, Start(op))
    requires st2 == StartStep(st, t, i, op)
    ensures Agrees(st2, s0)
  {
    StartRest(st, t, op, Flush(st.threads, st.s));
    BeganAgrees(st, st2, t, i, op, s0);
  }

  lemma {:induction false} HoldFound(st: State, st2: State, t: Tid, i: nat, k: Cont)
    requires HoldsAt(st, t, i, k) && Moves(st, st2, t)
    ensures Found(st.threads[t], Flush(st.threads, st.s))
    ensures Found(st2.threads[t], Flush(st.threads, st2.s))
  {
    ThreadOk(st2, t);
    FlushFinds(st2.threads[t], st.threads, st2.s);
  }

  lemma {:induction false} HoldActs(st: State, st2: State, t: Tid)
    requires Moves(st, st2, t) && st.threads[t].Holding? && Owns(st2.threads[t])
    requires st2.hist == st.hist && st2.results == st.results && st2.threads[t].i == st.threads[t].i
    requires forall p :: p in st.s.tab ==> NoPend(st.threads, p) || (p in st2.s.tab && st2.s.tab[p] == st.s.tab[p])
    ensures OwnerActs(st, st2, t)
  {
    OwnerIs(st, t);
    OwnerIs(st2, t);
  }

  /** The same for a later piece: what is left, and that it touched only files with nothing pending. */
  ghost predicate WentOn(st: State, st2: State, t: Tid, i: nat, k: Cont)
    requires t < |st.threads| && |st2.threads| == |st.threads| && CanHold(Flush(st.threads, st.s), k)
  {
    && st2.hist == st.hist && st2.results == st.results && Owns(st2.threads[t]) && st2.threads[t].i == i
    && (forall p :: p in st.s.tab ==> NoPend(st.threads, p) || (p in st2.s.tab && st2.s.tab[p] == st.s.tab[p]))
    && (Found(st2.threads[t], Flush(st.threads, st2.s)) ==>
         RestOf(st2.threads[t], Flush(st.threads, st2.s)) == RestHold(Flush(st.threads, st.s), k))
  }

  lemma {:induction false} WentOnAgrees(st: State, st2: State, t: Tid, i: nat, k: Cont, s0: Store)
    requires Shape(s0) && Moves(st, st2, t) && Agrees(st, s0) && HoldsAt(st, t, i, k) && WentOn(st, st2, t, i, k)
    ensures Agrees(st2, s0)
  {
    HoldFound(st, st2, t, i, k);
    HoldActs(st, st2, t);
    OwnerActsAgrees(st, st2, t, s0);
  }

  lemma {:induction false} HoldsAtFinds(st: State, t: Tid, i: nat, k: Cont)
    requires HoldsAt(st, t, i, k)
    ensures t < |st.threads| && Shape(st.s) && CanHold(st.s, k) && AllListed(st.s)
      && CanHold(Flush(st.threads, st.s), k)
    ensures st.threads[t] == Holding(i, k)
  {
  }

  lemma {:induction false} NobodyAtNew(st: State, q: Path)
    requires Inv(st) && q !in st.s.tab
    ensures NoPend(st.threads, q)
  {
    forall u: Tid ensures PendAt(st.threads, u, q).Nothing? {
      if u < |st.threads| && st.threads[u].Visit? { VisitedExists(st, u); }
    }
  }

  lemma {:induction false} CreateFinds(st: State, t: Tid, i: nat, k: Cont)
    requires HoldsAt(st, t, i, k) && k.OpenCreate?
    ensures t < |st.threads| && Shape(st.s) && k.q !in st.s.tab && CanHold(st.s, k)
    ensures CanHold(Flush(st.threads, st.s), k) && NoPend(st.threads, k.q)
  {
    HoldsAtFinds(st, t, i, k);
    NobodyAtNew(st, k.q);
  }

  lemma {:induction false} CreateRest(st: State, t: Tid, i: nat, k: Cont)
    requires HoldsAt(st, t, i, k) && k.OpenCreate?
    ensures CanHold(st.s, k) && t < |st.threads| && WentOn(st, HoldStep(st, t, i, k), t, i, k)
  {
    CreateFinds(st, t, i, k);
    FlushCreate(st.threads, st.s, k.q, if k.lock then k.c else NOBODY);
  }

  /** What the lemmas below need to know about the state. */
  ghost predicate Holder(st: State, t: Tid, i: nat, k: Cont) {
    && t < |st.threads| && st.threads[t] == Holding(i, k) && Shape(st.s) && CanHold(st.s, k)
    && CanHold(Flush(st.threads, st.s), k)
  }

  lemma {:induction false} WentOnIf(st: State, t: Tid, i: nat, k: Cont, s2: Store, pc2: PC)
    requires Holder(st, t, i, k)
    requires var st2 := HoldStep(st, t, i, k);
      st2.s == s2 && st2.threads == st.threads[t := pc2] && st2.hist == st.hist && st2.results == st.results
    requires Owns(pc2) && pc2.i == i
    requires forall p :: p in st.s.tab ==> NoPend(st.threads, p) || (p in s2.tab && s2.tab[p] == st.s.tab[p])
    requires Found(pc2, Flush(st.threads, s2)) ==>
      RestOf(pc2, Flush(st.threads, s2)) == RestHold(Flush(st.threads, st.s), k)
    ensures WentOn(st, HoldStep(st, t, i, k), t, i, k)
  {
  }

  lemma {:induction false} CommitRest(st: State, t: Tid, i: nat, k: Cont)
    requires Holder(st, t, i, k) && k.AppendEvict? && !NeedsRoom(st.s, k.content) && NoPend(st.threads, k.q)
    ensures WentOn(st, HoldStep(st, t, i, k), t, i, k)
  {
    var s2 := AppendCommit(st.s, k.q, k.content);
    var pc2 := Visit(i, true, k.q, Writer, Answer(Files(k.acc)), LeaveLate);
    FlushCommit(st.threads, st.s, k.q, k.content);
    if Found(pc2, Flush(st.threads, s2)) { RestIsAnswer(pc2, Flush(st.threads, s2)); }
    WentOnIf(st, t, i, k, s2, pc2);
  }

  lemma {:induction false} AppendVictimRest(pc2: PC, s: Store, F: Store, F2: Store, k: Cont)
    requires k.AppendEvict? && CanHold(F, k) && Shape(s) && F == s.(tab := F.tab)
    requires NeedsRoom(s, k.content) && Pick(s, Some(k.q)).Some?
    requires var (v, s1) := Pick(s, Some(k.q)).value;
      F2 == s1.(tab := F.tab) && pc2.Visit? && pc2.own && pc2.p == v && pc2.k == AppendVictim(k.q, k.content, k.acc)
    requires Found(pc2, F2)
    ensures RestOf(pc2, F2) == RestHold(F, k)
  {
    assert Pick(F, Some(k.q)) == Some((Pick(s, Some(k.q)).value.0, F2));
  }

  lemma {:induction false} EvictRest(st: State, t: Tid, i: nat, k: Cont)
    requires Holder(st, t, i, k) && k.AppendEvict? && NeedsRoom(st.s, k.content) && Pick(st.s, Some(k.q)).Some?
    ensures WentOn(st, HoldStep(st, t, i, k), t, i, k)
  {
    var (v, s1) := Pick(st.s, Some(k.q)).value;
    var pc2 := Visit(i, true, v, Victim, AppendVictim(k.q, k.content, k.acc), WantOrd);
    if Found(pc2, Flush(st.threads, s1)) {
      AppendVictimRest(pc2, st.s, Flush(st.threads, st.s), Flush(st.threads, s1), k);
    }
    WentOnIf(st, t, i, k, s1, pc2);
  }

  lemma {:induction false} NoVictimRest(st: State, t: Tid, i: nat, k: Cont)
    requires Holder(st, t, i, k) && k.AppendEvict? && NeedsRoom(st.s, k.content) && Pick(st.s, Some(k.q)).None?
    ensures WentOn(st, HoldStep(st, t, i, k), t, i, k)
  {
    var pc2 := Visit(i, true, k.q, Writer, Answer(Fail(FailedEvict)), LeaveLate);
    if Found(pc2, Flush(st.threads, st.s)) { RestIsAnswer(pc2, Flush(st.threads, st.s)); }
    WentOnIf(st, t, i, k, st.s, pc2);
  }

  lemma {:induction false} ReadNextRest(st: State, t: Tid, i: nat, k: Cont)
    requires Holder(st, t, i, k) && k.ReadNext?
    ensures WentOn(st, HoldStep(st, t, i, k), t, i, k)
  {
    var F := Flush(st.threads, st.s);
    if k.rest == [] || k.counter <= 0 {
      var s2 := MoveRead(st.s, k.read);
      var pc2 := Holding(i, Answer(Files(k.read)));
      assert Flush(st.threads, s2) == MoveRead(F, k.read);
      if Found(pc2, Flush(st.threads, s2)) { RestIsAnswer(pc2, Flush(st.threads, s2)); }
      WentOnIf(st, t, i, k, s2, pc2);
    } else {
      var pc2 := Visit(i, true, k.rest[0], Reader, ReadAt(k.rest[1..], k.counter, k.c, k.read), WantOrd);
      if Found(pc2, F) { ReadVisitRest(pc2, F, k); }
      WentOnIf(st, t, i, k, st.s, pc2);
    }
  }

  lemma {:induction false} ReadVisitRest(pc2: PC, F: Store, k: Cont)
    requires k.ReadNext? && k.rest != [] && CanHold(F, k) && Found(pc2, F)
    requires pc2.Visit? && pc2.own && pc2.p == k.rest[0] && pc2.k == ReadAt(k.rest[1..], k.counter, k.c, k.read)
    ensures RestOf(pc2, F) == RestHold(F, k)
  {
    assert [k.rest[0]] + k.rest[1..] == k.rest;
  }

  lemma {:induction false} DepartNextRest(st: State, t: Tid, i: nat, k: Cont)
    requires Holder(st, t, i, k) && k.DepartNext?
    ensures WentOn(st, HoldStep(st, t, i, k), t, i, k)
  {
    var F := Flush(st.threads, st.s);
    if k.rest == [] {
      var pc2 := Holding(i, Answer(Gained(k.gained)));
      if Found(pc2, F) { RestIsAnswer(pc2, F); }
      WentOnIf(st, t, i, k, st.s, pc2);
    } else {
      var pc2 := Visit(i, true, k.rest[0], Quiet, DepartAt(k.rest[1..], k.c, k.gained), WantOrd);
      if Found(pc2, F) { DepartVisitRest(pc2, F, k); }
      WentOnIf(st, t, i, k, st.s, pc2);
    }
  }

  lemma {:induction false} DepartVisitRest(pc2: PC, F: Store, k: Cont)
    requires k.DepartNext? && k.rest != [] && CanHold(F, k) && Found(pc2, F)
    requires pc2.Visit? && pc2.own && pc2.p == k.rest[0] && pc2.k == DepartAt(k.rest[1..], k.c, k.gained)
    ensures RestOf(pc2, F) == RestHold(F, k)
  {
    assert [k.rest[0]] + k.rest[1..] == k.rest;
  }

  lemma {:induction false} RemoveNowRest(st: State, t: Tid, i: nat, k: Cont)
    requires Holder(st, t, i, k) && k.RemoveNow? && NoPend(st.threads, k.q)
    ensures WentOn(st, HoldStep(st, t, i, k), t, i, k)
  {
    var (s2, r) := RemoveInside(st.s, k.q, k.c);
    FlushRemove(st.threads, st.s, k.q, k.c);
    var pc2 := Holding(i, Answer(r));
    if Found(pc2, Flush(st.threads, s2)) { RestIsAnswer(pc2, Flush(st.threads, s2)); }
    WentOnIf(st, t, i, k, s2, pc2);
  }

  lemma {:induction false} LoopRest(st: State, t: Tid, i: nat, k: Cont)
    requires HoldsAt(st, t, i, k) && (InLoop(k) || k.RemoveNow? || k.OpenCreate?)
    ensures CanHold(st.s, k) && t < |st.threads| && CanHold(Flush(st.threads, st.s), k)
      && WentOn(st, HoldStep(st, t, i, k), t, i, k)
  {
    HoldsAtFinds(st, t, i, k);
    match k
    case OpenCreate(_, _, _, _) => CreateRest(st, t, i, k);
    case ReadNext(_, _, _, _) => ReadNextRest(st, t, i, k);
    case DepartNext(_, _, _) => DepartNextRest(st, t, i, k);
    case AppendEvict(q, content, _) =>
      if !NeedsRoom(st.s, content) { OwnFile(st, t, q); CommitRest(st, t, i, k); }
      else if Pick(st.s, Some(q)).Some? { EvictRest(st, t, i, k); }
      else { NoVictimRest(st, t, i, k); }
    case RemoveNow(q, c) =>
      NobodyAtRemoved(st, t, i, q, c);
      RemoveNowRest(st, t, i, k);
  }

  lemma {:induction false} NobodyAtRemoved(st: State, t: Tid, i: nat, q: Path, c: Client)
    requires HoldsAt(st, t, i, RemoveNow(q, c))
    ensures NoPend(st.threads, q)
  {
    HoldsAtFinds(st, t, i, RemoveNow(q, c));
    ThreadOk(st, t);
    RemoveAlone(st, t, i, q, c);
    NoPartNoPend(st, t, q);
  }

  lemma {:induction false} LoopAgrees(st: State, st2: State, t: Tid, i: nat, k: Cont, s0: Store)
    requires Shape(s0) && Moves(st, st2, t) && Agrees(st, s0) && HoldsAt(st, t, i, k)
    requires InLoop(k) || k.RemoveNow? || k.OpenCreate?
    requires CanHold(st.s, k) && t < |st.threads| && st2 == HoldStep(st, t, i, k)
    ensures Agrees(st2, s0)
  {
    LoopRest(st, t, i, k);
    WentOnAgrees(st, st2, t, i, k, s0);
  }

  lemma {:induction false} AnswerOwner(st: State, st2: State, t: Tid, i: nat, r: Reply, s0: Store)
    requires Shape(s0) && Moves(st, st2, t) && Agrees(st, s0) && HoldsAt(st, t, i, Answer(r))
    requires st2.s == st.s && st2.hist == st.hist && st2.overall.None? && st2.results == st.results[i := r]
    requires t < |st.threads| && |st2.threads| == |st.threads| && st2.threads[t].Idle?
    requires Flush(st2.threads, st2.s) == Flush(st.threads, st2.s)
    ensures OwnerAgrees(st2, s0) && ResultsAgree(st2, s0) && WaiterAgrees(st2, s0, t)
  {
    HoldsAtFinds(st, t, i, Answer(r));
    OwnerIs(st, t);
    HoldFound(st, st2, t, i, Answer(r));
    RestIsAnswer(st.threads[t], Flush(st.threads, st.s));
    OwnerLeft(st, st2, t, s0);
  }

  lemma {:induction false} AnswerAgrees(st: State, st2: State, t: Tid, i: nat, r: Reply, s0: Store)
    requires Shape(s0) && Moves(st, st2, t) && Agrees(st, s0) && HoldsAt(st, t, i, Answer(r))
    requires st2.s == st.s && st2.hist == st.hist && st2.overall.None? && st2.results == st.results[i := r]
    requires t < |st.threads| && |st2.threads| == |st.threads| && st2.threads[t].Idle?
    ensures Agrees(st2, s0)
  {
    HoldsAtFinds(st, t, i, Answer(r));
    PendFrame(st.threads, st2.threads, t);
    FlushKept(st, st2, t);
    AnswerOwner(st, st2, t, i, r, s0);
    OthersKept(st, st2, t, s0);
    AllAgree(st2, t, s0);
  }

  lemma {:induction false} AnswerHoldAgrees(st: State, st2: State, t: Tid, i: nat, r: Reply, s0: Store)
    requires Shape(s0) && Moves(st, st2, t) && Agrees(st, s0) && HoldsAt(st, t, i, Answer(r))
    requires t < |st.threads| && CanHold(st.s, Answer(r)) && st2 == HoldStep(st, t, i, Answer(r))
    ensures Agrees(st2, s0)
  {
    AnswerAgrees(st, st2, t, i, r, s0);
  }

  lemma {:induction false} HoldAgrees(st: State, st2: State, t: Tid, i: nat, k: Cont, s0: Store)
    requires Shape(s0) && Moves(st, st2, t) && Agrees(st, s0) && Enabled(st, t) && st.threads[t] == Holding(i, k)
    requires st2 == HoldStep(st, t, i, k)
    ensures Agrees(st2, s0)
  {
    HoldsAtStart(st, t, i, k);
    HoldsAtFinds(st, t, i, k);
    if k.Start? {
      StartAgrees(st, st2, t, i, k.op, s0);
    } else if k.Answer? {
      AnswerHoldAgrees(st, st2, t, i, k.reply, s0);
    } else {
      LoopAgrees(st, st2, t, i, k, s0);
    }
  }

  // ---------- operations come and are put in their order ----------

  lemma {:induction false} LaterReply(s0: Store, hist: seq<Op>, op: Op, i: nat)
    requires Shape(s0) && i < |hist|
    ensures ReplyAt(s0, hist + [op], i) == ReplyAt(s0, hist, i)
  {
    assert (hist + [op])[..i] == hist[..i];
  }

  lemma {:induction false} LastReply(s0: Store, hist: seq<Op>, op: Op)
    requires Shape(s0)
    ensures Exec(Run(s0, hist), op) == (Run(s0, hist + [op]), ReplyAt(s0, hist + [op], |hist|))
  {
    assert (hist + [op])[..|hist|] == hist;
  }

  lemma {:induction false} AcquireWaiters(st: State, st2: State, t: Tid, op: Op, s0: Store)
    requires Shape(s0) && Moves(st, st2, t) && LeavesPending(st, st2) && st2.s == st.s && st2.hist == st.hist + [op]
    requires OthersAgree(st, s0, t)
    ensures OthersAgree(st2, s0, t)
  {
    forall u: Tid | u != t ensures WaiterAgrees(st2, s0, u) {
      assert WaiterAgrees(st, s0, u);
      if u < |st.threads| && Waits(st.threads[u]) {
        WaiterKept(st, st2, t, u);
        LaterReply(s0, st.hist, op, st.threads[u].i);
      }
    }
  }

  lemma {:induction false} AcquireAgrees(st: State, st2: State, t: Tid, op: Op, s0: Store)
    requires Shape(s0) && Moves(st, st2, t) && Agrees(st, s0) && st.overall.None?
    requires t < |st.threads| && |st2.threads| == |st.threads|
    requires st.threads[t] == WantOverall(op) && st2.threads[t] == Holding(|st.hist|, Start(op))
    requires st2.s == st.s && st2.overall == Some(t) && st2.hist == st.hist + [op] && st2.results == st.results
    ensures Agrees(st2, s0)
  {
    PendFrame(st.threads, st2.threads, t);
    FlushKept(st, st2, t);
    AcquireWaiters(st, st2, t, op, s0);
    LastReply(s0, st.hist, op);
    AcquireOwner(st, st2, t, op, s0);
    AcquireResults(st, st2, op, s0);
    AllAgree(st2, t, s0);
  }

  lemma {:induction false} AcquireOwner(st: State, st2: State, t: Tid, op: Op, s0: Store)
    requires Shape(s0) && OwnerAgrees(st, s0) && st.overall.None? && Inv(st2)
    requires t < |st2.threads| && st2.threads[t] == Holding(|st.hist|, Start(op))
    requires st2.overall == Some(t) && st2.hist == st.hist + [op]
      && Flush(st2.threads, st2.s) == Flush(st.threads, st.s)
    ensures OwnerAgrees(st2, s0)
  {
    LastReply(s0, st.hist, op);
    ThreadOk(st2, t);
    FlushFinds(st2.threads[t], st2.threads, st2.s);
  }

  lemma {:induction false} AcquireResults(st: State, st2: State, op: Op, s0: Store)
    requires Shape(s0) && ResultsAgree(st, s0) && st2.results == st.results && st2.hist == st.hist + [op]
    ensures ResultsAgree(st2, s0)
  {
    forall i | i in st2.results ensures i < |st2.hist| && st2.results[i] == ReplyAt(s0, st2.hist, i) {
      LaterReply(s0, st.hist, op, i);
    }
  }

  lemma {:induction false} CallAgrees(st: State, st2: State, t: Tid, op: Op, s0: Store)
    requires Shape(s0) && Moves(st, st2, t) && Agrees(st, s0)
    requires t < |st.threads| && |st2.threads| == |st.threads| && st.threads[t].Idle?
      && st2.threads[t] == WantOverall(op)
    requires SameWork(st, st2) && st2.overall == st.overall && st2.results == st.results
    ensures Agrees(st2, s0)
  {
    PendFrame(st.threads, st2.threads, t);
    OwnerIs(st, t);
    WaiterStep(st, st2, t, s0);
  }

  // ---------- every step of a visit ----------

  /** The phases that only take or give a lock of the file, count, sleep, wake or signal. */
  predicate PlainPhase(pc: PC) {
    pc.Visit? && match pc.ph
      case LeaveEarly => false
      case Check(_) => false
      case Body => false
      case LeaveLate => false
      case ExitUnlock => false
      case RelMutex => pc.mode != Probe
      case _ => true
  }

  ghost predicate VisitsNow(st: State, t: Tid, pc: PC) {
    (&& t < |st.threads| && pc == st.threads[t] && pc.Visit? && KindOk(pc)
     && pc.p in st.sync && pc.p in st.s.tab && Shape(st.s) && (pc.mode == Victim ==> pc.p !in st.s.order)) == true
  }

  /** The thread stays in its visit, and nothing but its phase and the file's locks has changed. */
  ghost predicate OnlyPhase(st: State, st2: State, t: Tid) {
    (&& t < |st.threads| && |st2.threads| == |st.threads| && SameWork(st, st2)
     && st2.overall == st.overall && st2.results == st.results
     && var pc := st.threads[t]; var pc2 := st2.threads[t];
        pc.Visit? && pc2.Visit? && pc2 == pc.(ph := pc2.ph)
        && (!pc.own && pc.k.Deliverable? ==> Inside(pc.ph) == Inside(pc2.ph))) == true
  }

  lemma {:induction false} PlainIsPhase(st: State, t: Tid, pc: PC)
    requires VisitsNow(st, t, pc) && PlainPhase(pc)
    ensures OnlyPhase(st, VisitStep(st, t, pc), t)
  {
  }

  lemma {:induction false} OnlyPhaseAgrees(st: State, st2: State, t: Tid, s0: Store)
    requires Shape(s0) && Moves(st, st2, t) && Agrees(st, s0) && OnlyPhase(st, st2, t)
    ensures Agrees(st2, s0)
  {
    PhaseAgrees(st, st2, t, s0);
  }

  lemma {:induction false} CheckIsPhase(st: State, t: Tid, pc: PC)
    requires VisitsNow(st, t, pc) && pc.ph.Check?
    requires Blocked(pc.mode, st.sync[pc.p]) || (pc.own && pc.mode != Victim)
    ensures OnlyPhase(st, CheckStep(st, t, pc), t)
  {
  }

  ghost predicate Checks(st: State, st2: State, t: Tid) {
    (&& Enabled(st, t) && VisitsNow(st, t, st.threads[t]) && st.threads[t].ph.Check?
     && st2 == CheckStep(st, t, st.threads[t])) == true
  }

  predicate StaysOut(st: State, pc: PC)
    requires pc.Visit? && pc.p in st.sync
  {
    Blocked(pc.mode, st.sync[pc.p]) || (pc.own && pc.mode != Victim)
  }

  lemma {:induction false} VictimCheckAgrees(st: State, st2: State, t: Tid, s0: Store)
    requires Shape(s0) && Moves(st, st2, t) && Agrees(st, s0) && Checks(st, st2, t)
    requires !StaysOut(st, st.threads[t]) && st.threads[t].mode == Victim
    ensures Agrees(st2, s0)
  {
    OwnerHere(st, t, st.threads[t].ph);
    VictimAgrees(st, st2, t, st.threads[t].ph.woken, s0);
  }

  lemma {:induction false} CheckEnters(st: State, st2: State, t: Tid)
    requires Checks(st, st2, t) && !StaysOut(st, st.threads[t]) && st.threads[t].mode != Victim
    ensures SameWork(st, st2) && EntersNow(st, st2, t) && st2.overall == st.overall && st2.results == st.results
  {
  }

  lemma {:induction false} CheckAgrees(st: State, st2: State, t: Tid, s0: Store)
    requires Shape(s0) && Moves(st, st2, t) && Agrees(st, s0) && Checks(st, st2, t)
    ensures Agrees(st2, s0)
  {
    if StaysOut(st, st.threads[t]) {
      CheckIsPhase(st, t, st.threads[t]);
      OnlyPhaseAgrees(st, st2, t, s0);
    } else if st.threads[t].mode == Victim {
      VictimCheckAgrees(st, st2, t, s0);
    } else {
      CheckEnters(st, st2, t);
      EnterAgrees(st, st2, t, s0);
    }
  }

  lemma {:induction false} OwnerHere(st: State, t: Tid, ph: Phase)
    requires Inv(st) && Enabled(st, t) && VisitsNow(st, t, st.threads[t]) && st.threads[t].own && st.threads[t].ph == ph
    ensures OwnerAt(st, t, ph)
  {
  }

  lemma {:induction false} BodyKinds(pc: PC)
    requires pc.Visit? && pc.ph == Body && KindOk(pc)
    ensures pc.k.Deliverable? || pc.k.AppendEnter? || pc.k.ReadAt? || pc.k.DepartAt?
    ensures pc.own != pc.k.Deliverable?
  {
  }

  ghost predicate BodyNow(st: State, st2: State, t: Tid) {
    (&& Moves(st, st2, t) && Enabled(st, t) && VisitsNow(st, t, st.threads[t])
     && st.threads[t].ph == Body && st2 == BodyStep(st, t, st.threads[t])) == true
  }

  lemma {:induction false} BodyDelivers(st: State, st2: State, t: Tid, s0: Store)
    requires Shape(s0) && Agrees(st, s0) && BodyNow(st, st2, t) && st.threads[t].k.Deliverable?
    ensures Agrees(st2, s0)
  {
    BodyKinds(st.threads[t]);
    DeliverAgrees(st, st2, t, s0);
  }

  lemma {:induction false} BodyAgrees(st: State, st2: State, t: Tid, s0: Store)
    requires Shape(s0) && Agrees(st, s0) && BodyNow(st, st2, t)
    ensures Agrees(st2, s0)
  {
    BodyKinds(st.threads[t]);
    if st.threads[t].k.Deliverable? { BodyDelivers(st, st2, t, s0); }
    else { OwnBodyAgrees(st, st2, t, s0); }
  }

  lemma {:induction false} OwnBodyAgrees(st: State, st2: State, t: Tid, s0: Store)
    requires Shape(s0) && Agrees(st, s0) && BodyNow(st, st2, t) && st.threads[t].own
    requires st.threads[t].k.AppendEnter? || st.threads[t].k.ReadAt? || st.threads[t].k.DepartAt?
    ensures Agrees(st2, s0)
  {
    OwnerHere(st, t, Body);
    match st.threads[t].k
    case AppendEnter(_, _, _) => AppendEnterAgrees(st, st2, t, s0);
    case ReadAt(_, _, _, _) => ReadAtAgrees(st, st2, t, s0);
    case DepartAt(_, _, _) => DepartAtAgrees(st, st2, t, s0);
  }

  /** The end of a visit, for a thread with the overall mutex and for one without. */
  ghost predicate EndsOwn(st: State, st2: State, t: Tid) {
    (&& t < |st.threads| && |st2.threads| == |st.threads| && SameWork(st, st2)
     && st2.overall == st.overall && st2.results == st.results
     && var pc := st.threads[t];
        pc.Visit? && pc.own && (pc.k.RemoveAt? || pc.k.ReadNext? || pc.k.DepartNext?)
        && st2.threads[t] == Holding(pc.i, if pc.k.RemoveAt? then RemoveNow(pc.p, pc.k.c) else pc.k)) == true
  }

  ghost predicate EndsWaiter(st: State, st2: State, t: Tid) {
    (&& t < |st.threads| && |st2.threads| == |st.threads| && SameWork(st, st2)
     && st2.overall == st.overall && st2.threads[t].Idle?
     && var pc := st.threads[t]; Waits(pc) && pc.k.Answer? && st2.results == st.results[pc.i := pc.k.reply]) == true
  }

  lemma {:induction false} EndIs(st: State, t: Tid, pc: PC)
    requires VisitsNow(st, t, pc) && (pc.ph == ExitUnlock || (pc.ph == RelMutex && pc.mode == Probe))
    ensures var st2 := VisitStep(st, t, pc); if pc.own then EndsOwn(st, st2, t) else EndsWaiter(st, st2, t)
  {
  }

  lemma {:induction false} EndAgrees(st: State, st2: State, t: Tid, s0: Store)
    requires Shape(s0) && Moves(st, st2, t) && Agrees(st, s0) && (EndsOwn(st, st2, t) || EndsWaiter(st, st2, t))
    ensures Agrees(st2, s0)
  {
    if EndsOwn(st, st2, t) {
      VisitEndAgrees(st, st2, t, s0);
    } else {
      ResultAgrees(st, st2, t, s0);
    }
  }

  /** The overall mutex is given up, with the effect pending or done. */
  ghost predicate GivesUp(st: State, st2: State, t: Tid) {
    (&& t < |st.threads| && |st2.threads| == |st.threads| && SameWork(st, st2)
     && st2.overall.None? && st2.results == st.results
     && var pc := st.threads[t];
        pc.Visit? && pc.own
        && (if pc.ph == LeaveEarly then pc.k.Deliverable? && st2.threads[t] == pc.(own := false, ph := Check(false))
            else pc.k.Answer? && st2.threads[t] == pc.(own := false, ph := ExitLock))) == true
  }

  lemma {:induction false} LeaveIs(st: State, t: Tid, pc: PC)
    requires VisitsNow(st, t, pc) && (pc.ph == LeaveEarly || pc.ph == LeaveLate)
    ensures GivesUp(st, VisitStep(st, t, pc), t)
  {
  }

  lemma {:induction false} LeaveAgrees(st: State, st2: State, t: Tid, s0: Store)
    requires Shape(s0) && Moves(st, st2, t) && Agrees(st, s0) && GivesUp(st, st2, t)
    ensures Agrees(st2, s0)
  {
    if st.threads[t].ph == LeaveEarly {
      LeaveEarlyAgrees(st, st2, t, s0);
    } else {
      LeaveLateAgrees(st, st2, t, s0);
    }
  }

  lemma {:induction false} VisitAgrees(st: State, st2: State, t: Tid, s0: Store)
    requires Shape(s0) && Moves(st, st2, t) && Agrees(st, s0) && Enabled(st, t)
    requires VisitsNow(st, t, st.threads[t]) && st2 == VisitStep(st, t, st.threads[t])
    ensures Agrees(st2, s0)
  {
    var pc := st.threads[t];
    if PlainPhase(pc) {
      PlainIsPhase(st, t, pc);
      OnlyPhaseAgrees(st, st2, t, s0);
    } else if pc.ph.Check? {
      CheckAgrees(st, st2, t, s0);
    } else if pc.ph == Body {
      BodyAgrees(st, st2, t, s0);
    } else if pc.ph == LeaveEarly || pc.ph == LeaveLate {
      LeaveIs(st, t, pc);
      LeaveAgrees(st, st2, t, s0);
    } else {
      EndIs(st, t, pc);
      EndAgrees(st, st2, t, s0);
    }
  }

  // ---------- every run ----------

  lemma {:induction false} SpuriousIsPhase(st: State, t: Tid)
    requires Inv(st) && CanWakeSpuriously(st, t)
    ensures OnlyPhase(st, Spurious(st, t), t)
  {
    ThreadOk(st, t);
  }

  lemma {:induction false} MovesTo(st: State, st2: State, t: Tid)
    requires Inv(st) && Inv(st2) && t < |st.threads| && |st2.threads| == |st.threads|
    requires st2.threads == st.threads[t := st2.threads[t]]
    ensures Moves(st, st2, t)
  {
  }

  ghost predicate OnlyThread(st: State, st2: State, t: Tid) {
    t < |st.threads| && |st2.threads| == |st.threads| && st2.threads == st.threads[t := st2.threads[t]]
  }

  lemma {:induction false} HoldThreads(st: State, t: Tid, i: nat, k: Cont)
    requires t < |st.threads| && CanHold(st.s, k)
    ensures OnlyThread(st, HoldStep(st, t, i, k), t)
  {
    if k.Start? { StartThreads(st, t, i, k.op); }
  }

  lemma {:induction false} StartThreads(st: State, t: Tid, i: nat, op: Op)
    requires t < |st.threads| && Shape(st.s) && AllListed(st.s)
    ensures OnlyThread(st, StartStep(st, t, i, op), t)
  {
  }

  lemma {:induction false} VisitThreads(st: State, t: Tid, pc: PC)
    requires VisitsNow(st, t, pc)
    ensures OnlyThread(st, VisitStep(st, t, pc), t)
  {
  }

  lemma {:induction false} StepAgrees(st: State, t: Tid, s0: Store)
    requires Shape(s0) && Inv(st) && Enabled(st, t) && Agrees(st, s0)
    ensures Agrees(Step(st, t), s0)
  {
    StepKeeps(st, t);
    ThreadOk(st, t);
    match st.threads[t]
    case WantOverall(op) =>
      MovesTo(st, Step(st, t), t);
      AcquireAgrees(st, Step(st, t), t, op, s0);
    case Holding(i, k) =>
      HoldThreads(st, t, i, k);
      MovesTo(st, Step(st, t), t);
      HoldAgrees(st, Step(st, t), t, i, k, s0);
    case Visit(_, _, _, _, _, _) =>
      VisitThreads(st, t, st.threads[t]);
      MovesTo(st, Step(st, t), t);
      VisitAgrees(st, Step(st, t), t, s0);
  }

  lemma {:induction false} NextAgrees(st: State, st2: State, s0: Store)
    requires Shape(s0) && Inv(st) && Agrees(st, s0) && Next(st, st2)
    ensures Agrees(st2, s0)
  {
    if t :| Enabled(st, t) && st2 == Step(st, t) {
      StepAgrees(st, t, s0);
    } else if t, op :| CanCall(st, t, op) && st2 == Call(st, t, op) {
      CallKeeps(st, t, op);
      MovesTo(st, st2, t);
      CallAgrees(st, st2, t, op, s0);
    } else {
      var t :| CanWakeSpuriously(st, t) && st2 == Spurious(st, t);
      SpuriousKeeps(st, t);
      MovesTo(st, st2, t);
      SpuriousIsPhase(st, t);
      OnlyPhaseAgrees(st, st2, t, s0);
    }
  }

  lemma {:induction false} InitAgrees(st: State, maxSize: nat, maxFiles: nat, policy: Policy)
    requires Init(st, maxSize, maxFiles, policy)
    ensures Agrees(st, Empty(maxSize, maxFiles, policy))
  {
    assert Flush(st.threads, st.s) == Empty(maxSize, maxFiles, policy);
  }

  lemma {:induction false} NextOf(sts: seq<State>, maxSize: nat, maxFiles: nat, policy: Policy, i: nat)
    requires Behaviour(sts, maxSize, maxFiles, policy) && 0 < i < |sts|
    ensures Inv(sts[i - 1]) && Next(sts[i - 1], sts[i])
  {
    BehaviourKeeps(sts, maxSize, maxFiles, policy, i - 1);
    BehaviourNext(sts, maxSize, maxFiles, policy, i);
  }

  lemma {:induction false} FirstAgrees(sts: seq<State>, maxSize: nat, maxFiles: nat, policy: Policy)
    requires Behaviour(sts, maxSize, maxFiles, policy)
    ensures sts != [] && Agrees(sts[0], Empty(maxSize, maxFiles, policy))
  {
    InitAgrees(sts[0], maxSize, maxFiles, policy);
  }

  lemma {:induction false} BehaviourAgrees(sts: seq<State>, maxSize: nat, maxFiles: nat, policy: Policy, i: nat)
    requires Behaviour(sts, maxSize, maxFiles, policy) && i < |sts|
    ensures Agrees(sts[i], Empty(maxSize, maxFiles, policy))
  {
    if i == 0 {
      FirstAgrees(sts, maxSize, maxFiles, policy);
    } else {
      BehaviourAgrees(sts, maxSize, maxFiles, policy, i - 1);
      NextOf(sts, maxSize, maxFiles, policy, i);
      NextAgrees(sts[i - 1], sts[i], Empty(maxSize, maxFiles, policy));
    }
  }

  /** Linearizability, answers: whatever the interleaving, an operation gets the answer it would get
      if the operations ran one after the other in the order in which they took the overall mutex. */
  lemma {:induction false} AnswersAreSequential(sts: seq<State>, maxSize: nat, maxFiles: nat, policy: Policy, j: nat,
      i: nat)
    requires Behaviour(sts, maxSize, maxFiles, policy) && j < |sts| && i in sts[j].results
    ensures i < |sts[j].hist|
    ensures sts[j].results[i] == ReplyAt(Empty(maxSize, maxFiles, policy), sts[j].hist, i)
  {
    BehaviourKeeps(sts, maxSize, maxFiles, policy, j);
    BehaviourAgrees(sts, maxSize, maxFiles, policy, j);
  }

  lemma {:induction false} FlushNone(threads: seq<PC>, s: Store)
    requires forall p :: NoPend(threads, p)
    ensures Flush(threads, s) == s
  {
    forall p | p in s.tab ensures Outer(threads, p, s.tab[p]) == s.tab[p] { OuterOfNone(threads, p, s.tab[p]); }
    assert Flush(threads, s).tab == s.tab;
  }

  /** Linearizability, store: when no operation is under way, the store is what the operations
      leave behind one after the other in that order. */
  lemma {:induction false} StoreIsSequential(sts: seq<State>, maxSize: nat, maxFiles: nat, policy: Policy, j: nat)
    requires Behaviour(sts, maxSize, maxFiles, policy) && j < |sts|
    requires forall t: Tid :: t < |sts[j].threads| ==> sts[j].threads[t].Idle? || sts[j].threads[t].WantOverall?
    ensures sts[j].s == Run(Empty(maxSize, maxFiles, policy), sts[j].hist)
  {
    BehaviourKeeps(sts, maxSize, maxFiles, policy, j);
    BehaviourAgrees(sts, maxSize, maxFiles, policy, j);
    var st := sts[j];
    if st.overall.Some? { OwnerIs(st, st.overall.value); }
    forall p ensures NoPend(st.threads, p) {}
    FlushNone(st.threads, st.s);
  }
}
