/** What the invariant of the threads means for the files: the results about mutual exclusion, the
    freeing of files and wake-ups, for every state of every run. */
module Exclusion {
  import opened StoreTypes
  import opened StoreSpec
  import opened Protocol
  import opened ProtocolSafety

  /** The thread increased `activeReaders` or `activeWriters` of p and has not decreased it yet. An
      append that is evicting other files is still inside the file it appends to. */
  predicate ReadsIn(st: State, t: Tid, p: Path) { At(st.threads, t, p).asReader }

  predicate WritesIn(st: State, t: Tid, p: Path) { At(st.threads, t, p).asWriter }

  predicate WaitsOnGo(st: State, t: Tid, p: Path) {
    t < |st.threads| && st.threads[t].Visit? && st.threads[t].p == p && st.threads[t].ph == Asleep
  }

  lemma {:induction false} InsideExists(st: State, t: Tid, p: Path)
    requires Inv(st) && (ReadsIn(st, t, p) || WritesIn(st, t, p) || WaitsOnGo(st, t, p))
    ensures t < |st.threads| && p in st.sync && FileOk(st.sync[p], st.threads, p)
  {
    ThreadOk(st, t);
    assert FilesOk(st);
  }

  /** A writer is alone in its file, and the counters count the threads inside. */
  lemma {:induction false} WriterIsAlone(sts: seq<State>, maxSize: nat, maxFiles: nat, policy: Policy, i: nat, t: Tid,
      u: Tid, p: Path)
    requires Behaviour(sts, maxSize, maxFiles, policy) && i < |sts|
    requires WritesIn(sts[i], t, p)
    ensures u != t ==> !WritesIn(sts[i], u, p) && !ReadsIn(sts[i], u, p)
    ensures p in sts[i].sync && sts[i].sync[p].activeWriters == 1 && sts[i].sync[p].activeReaders == 0
  {
    BehaviourKeeps(sts, maxSize, maxFiles, policy, i);
    InsideExists(sts[i], t, p);
    var y := sts[i].sync[p];
    assert RoleOk(y, At(sts[i].threads, t, p), t) && RoleOk(y, At(sts[i].threads, u, p), u);
  }

  ghost function ReadersOf(st: State, p: Path): set<Tid> {
    set t: Tid | 0 <= t < |st.threads| && ReadsIn(st, t, p)
  }

  ghost function WritersOf(st: State, p: Path): set<Tid> {
    set t: Tid | 0 <= t < |st.threads| && WritesIn(st, t, p)
  }

  lemma {:induction false} MembersInside(st: State, p: Path, t: Tid)
    requires Inv(st) && p in st.sync
    ensures t in st.sync[p].readers <==> t in ReadersOf(st, p)
    ensures st.sync[p].writer == Some(t) <==> t in WritersOf(st, p)
  {
    assert FilesOk(st);
    assert FileOk(st.sync[p], st.threads, p);
    assert RoleOk(st.sync[p], At(st.threads, t, p), t);
  }

  /** The counters of a file count the threads inside of it. */
  lemma {:induction false} CountersCount(sts: seq<State>, maxSize: nat, maxFiles: nat, policy: Policy, i: nat, p: Path)
    requires Behaviour(sts, maxSize, maxFiles, policy) && i < |sts| && p in sts[i].sync
    ensures sts[i].sync[p].activeReaders == |ReadersOf(sts[i], p)|
    ensures sts[i].sync[p].activeWriters == |WritersOf(sts[i], p)| <= 1
    ensures sts[i].sync[p].activeWriters == 0 || sts[i].sync[p].activeReaders == 0
  {
    BehaviourKeeps(sts, maxSize, maxFiles, policy, i);
    var st := sts[i];
    var y := st.sync[p];
    assert FilesOk(st);
    assert FileOk(y, st.threads, p);
    var writers: set<Tid> := if y.writer.Some? then {y.writer.value} else {};
    forall t: Tid ensures (t in y.readers <==> t in ReadersOf(st, p)) && (t in writers <==> t in WritersOf(st, p)) {
      MembersInside(st, p, t);
    }
    assert y.readers == ReadersOf(st, p);
    assert writers == WritersOf(st, p);
  }

  /** At the test of the wait loop a reader waits exactly while a thread writes in the file, and any
      other visitor exactly while some thread is inside: so readers share the file. */
  lemma {:induction false} WaitsExactly(sts: seq<State>, maxSize: nat, maxFiles: nat, policy: Policy, i: nat, t: Tid)
    requires Behaviour(sts, maxSize, maxFiles, policy) && i < |sts| && t < |sts[i].threads|
    requires sts[i].threads[t].Visit? && sts[i].threads[t].ph.Check?
    ensures Enabled(sts[i], t)
    ensures var p := sts[i].threads[t].p;
      Step(sts[i], t).threads[t] == sts[i].threads[t].(ph := Asleep) <==>
        WritersOf(sts[i], p) != {} || (sts[i].threads[t].mode != Reader && ReadersOf(sts[i], p) != {})
  {
    BehaviourKeeps(sts, maxSize, maxFiles, policy, i);
    ThreadOk(sts[i], t);
    CountersCount(sts, maxSize, maxFiles, policy, i, sts[i].threads[t].p);
    CheckSleeps(sts[i], t, sts[i].threads[t]);
  }

  lemma {:induction false} CheckSleeps(st: State, t: Tid, pc: PC)
    requires t < |st.threads| && pc == st.threads[t] && pc.Visit? && pc.ph.Check? && Enabled(st, t)
    requires Shape(st.s)
    ensures Step(st, t).threads[t] == pc.(ph := Asleep) <==> Blocked(pc.mode, st.sync[pc.p])
  {
  }

  /** Who only reads a file visits it as a reader. */
  lemma {:induction false} ReadersRead(sts: seq<State>, maxSize: nat, maxFiles: nat, policy: Policy, i: nat, t: Tid)
    requires Behaviour(sts, maxSize, maxFiles, policy) && i < |sts| && t < |sts[i].threads| && sts[i].threads[t].Visit?
    ensures var pc := sts[i].threads[t];
      pc.k.ReadAt? || (pc.k.Deliverable? && pc.k.e.ReadIt?) ==> pc.mode == Reader
  {
    BehaviourKeeps(sts, maxSize, maxFiles, policy, i);
    ThreadOk(sts[i], t);
  }

  /** An operation on one file waits for the file, and works in it, without the overall mutex. */
  lemma {:induction false} WorksWithoutOverall(sts: seq<State>, maxSize: nat, maxFiles: nat, policy: Policy, i: nat,
      t: Tid)
    requires Behaviour(sts, maxSize, maxFiles, policy) && i < |sts| && t < |sts[i].threads| && sts[i].threads[t].Visit?
    requires var pc := sts[i].threads[t];
      pc.k.Deliverable? && pc.ph != WantOrd && pc.ph != WantMutex && pc.ph != LeaveEarly
    ensures sts[i].overall != Some(t)
  {
    BehaviourKeeps(sts, maxSize, maxFiles, policy, i);
    ThreadOk(sts[i], t);
    assert OwnerOk(sts[i]);
  }

  /** At most one thread waits on `go`, and it is the one that owns `ordering`. */
  lemma {:induction false} OneWaiter(sts: seq<State>, maxSize: nat, maxFiles: nat, policy: Policy, i: nat, t: Tid,
      u: Tid, p: Path)
    requires Behaviour(sts, maxSize, maxFiles, policy) && i < |sts|
    requires WaitsOnGo(sts[i], t, p) && WaitsOnGo(sts[i], u, p)
    ensures t == u && p in sts[i].sync && sts[i].sync[p].ord == Some(t)
  {
    BehaviourKeeps(sts, maxSize, maxFiles, policy, i);
    InsideExists(sts[i], t, p);
    OneSleeper(sts[i].sync[p], sts[i].threads, p, t, u);
  }

  /** No lost wake-up: a thread asleep on `go` that could go on has been signalled, or the owner
      of the file's mutex is just about to signal. */
  lemma {:induction false} NoLostWakeup(sts: seq<State>, maxSize: nat, maxFiles: nat, policy: Policy, i: nat, t: Tid,
      p: Path)
    requires Behaviour(sts, maxSize, maxFiles, policy) && i < |sts| && WaitsOnGo(sts[i], t, p)
    ensures p in sts[i].sync
    ensures var y := sts[i].sync[p];
      t in y.waitset && !Blocked(sts[i].threads[t].mode, y) ==>
        y.mutex.Some? && y.mutex.value < |sts[i].threads|
        && sts[i].threads[y.mutex.value].Visit? && sts[i].threads[y.mutex.value].p == p
        && sts[i].threads[y.mutex.value].ph == ExitSignal
  {
    BehaviourKeeps(sts, maxSize, maxFiles, policy, i);
    InsideExists(sts[i], t, p);
    assert Signalled(sts[i].sync[p], sts[i].threads, p, t);
  }

  /** A signalled thread never has to wait again: the way stays free until it has the mutex. */
  lemma {:induction false} SignalledGoesOn(sts: seq<State>, maxSize: nat, maxFiles: nat, policy: Policy, i: nat, t: Tid)
    requires Behaviour(sts, maxSize, maxFiles, policy) && i < |sts| && t < |sts[i].threads| && sts[i].threads[t].Visit?
    requires sts[i].threads[t].ph == Check(true) || sts[i].threads[t].ph == Reacquire(true)
    ensures sts[i].threads[t].p in sts[i].sync
    ensures !Blocked(sts[i].threads[t].mode, sts[i].sync[sts[i].threads[t].p])
  {
    BehaviourKeeps(sts, maxSize, maxFiles, policy, i);
    var p := sts[i].threads[t].p;
    ThreadOk(sts[i], t);
    assert FilesOk(sts[i]);
    assert FileOk(sts[i].sync[p], sts[i].threads, p);
    assert RoleOk(sts[i].sync[p], At(sts[i].threads, t, p), t);
  }

  /** The code under the overall mutex is executed by one thread at a time, and by nobody else. */
  lemma {:induction false} OneOwner(sts: seq<State>, maxSize: nat, maxFiles: nat, policy: Policy, i: nat, t: Tid,
      u: Tid)
    requires Behaviour(sts, maxSize, maxFiles, policy) && i < |sts| && t < |sts[i].threads| && u < |sts[i].threads|
    requires Owns(sts[i].threads[t]) && Owns(sts[i].threads[u])
    ensures t == u && sts[i].overall == Some(t)
  {
    BehaviourKeeps(sts, maxSize, maxFiles, policy, i);
    assert OwnerOk(sts[i]);
    assert sts[i].overall == Some(t) <==> t < |sts[i].threads| && Owns(sts[i].threads[t]);
    assert sts[i].overall == Some(u) <==> u < |sts[i].threads| && Owns(sts[i].threads[u]);
  }

  /** A thread never works on a freed file: the file it visits, and the one it is inside of while
      it evicts others, are in the index and have their locks. */
  lemma {:induction false} NoUseAfterFree(sts: seq<State>, maxSize: nat, maxFiles: nat, policy: Policy, i: nat, t: Tid)
    requires Behaviour(sts, maxSize, maxFiles, policy) && i < |sts| && t < |sts[i].threads|
    ensures sts[i].sync.Keys == sts[i].s.tab.Keys
    ensures sts[i].threads[t].Visit? ==> sts[i].threads[t].p in sts[i].s.tab
    ensures forall p :: ReadsIn(sts[i], t, p) || WritesIn(sts[i], t, p) ==> p in sts[i].s.tab
  {
    BehaviourKeeps(sts, maxSize, maxFiles, policy, i);
    ThreadOk(sts[i], t);
    forall p | ReadsIn(sts[i], t, p) || WritesIn(sts[i], t, p) ensures p in sts[i].s.tab {
      InsideExists(sts[i], t, p);
    }
  }

  /** The threads that visit p, are inside of it, or own one of its locks. */
  predicate Touches(st: State, t: Tid, p: Path) {
    t < |st.threads| && !NoPart(st.threads, t, p)
  }

  /** When a step frees a file, no thread but the one that frees it has anything to do with it. */
  lemma {:induction false} FreedAlone(sts: seq<State>, maxSize: nat, maxFiles: nat, policy: Policy, i: nat, p: Path)
    requires Behaviour(sts, maxSize, maxFiles, policy) && i + 1 < |sts|
    requires p in sts[i].s.tab && p !in sts[i + 1].s.tab
    ensures exists t: Tid :: Owned(sts[i], t) && forall u: Tid :: Touches(sts[i], u, p) ==> u == t
  {
    BehaviourKeeps(sts, maxSize, maxFiles, policy, i);
    var st := sts[i];
    var st2 := sts[i + 1];
    assert NextAt(sts, i);
    if t :| Enabled(st, t) && st2 == Step(st, t) {
      FreeingStep(st, t, p);
      assert Owned(st, t);
    }
  }

  predicate Owned(st: State, t: Tid) { st.overall == Some(t) }

  lemma {:induction false} FreeingStep(st: State, t: Tid, p: Path)
    requires Inv(st) && Enabled(st, t) && p in st.s.tab && p !in Step(st, t).s.tab
    ensures Owned(st, t) && forall u: Tid :: Touches(st, u, p) ==> u == t
  {
    var pc := st.threads[t];
    ThreadOk(st, t);
    assert st.overall == Some(t) <==> t < |st.threads| && Owns(st.threads[t]);
    if pc.Holding? {
      assert st.sync.Keys == st.s.tab.Keys;
      HoldFrees(st, t, pc.i, pc.k, p);
      RemoveAlone(st, t, pc.i, pc.k.q, pc.k.c);
    } else {
      VisitFrees(st, t, pc, p);
      VictimAlone(st, t, pc.ph.woken);
    }
  }

  lemma {:induction false} HoldFrees(st: State, t: Tid, i: nat, k: Cont, p: Path)
    requires t < |st.threads| && CanHold(st.s, k) && p in st.s.tab && p !in HoldStep(st, t, i, k).s.tab
    ensures k.RemoveNow? && k.q == p
  {
    if k.Start? { StartKeepsFiles(st, t, i, k.op); }
  }

  lemma {:induction false} StartKeepsFiles(st: State, t: Tid, i: nat, op: Op)
    requires t < |st.threads| && Shape(st.s) && AllListed(st.s)
    ensures StartStep(st, t, i, op).s.tab == st.s.tab
  {
  }

  lemma {:induction false} VisitFrees(st: State, t: Tid, pc: PC, p: Path)
    requires t < |st.threads| && pc == st.threads[t] && pc.Visit? && pc.p in st.sync && pc.p in st.s.tab
    requires Shape(st.s) && (pc.mode == Victim ==> pc.p !in st.s.order)
    requires p in st.s.tab && p !in VisitStep(st, t, pc).s.tab
    ensures pc.ph.Check? && pc.mode == Victim && pc.p == p && !Blocked(pc.mode, st.sync[p])
  {
  }
}
