/** The blocking queue between the select loop and the workers, as a concurrent program: the lock of
    the dictionary of queues, the lock and the condition variable of the queue, and the flag that a
    deletion sets. The steps are the lock, unlock, wait and signal calls of the threads. */
module BlockingQueue {
  import opened StoreTypes

  type Tid = nat
  type Element = int

  datatype Op = Enqueue(x: Element) | Dequeue(wait: bool) | Delete

  datatype Result = Enqueued | Dequeued(x: Element) | QueueEmpty | QueueDeleted | Deleted

  /** Where a thread is. With `Testing` it has the queue's lock and is at the head of the wait loop,
      `woken` says that it was signalled (or that a deletion woke it) and has not tested since. */
  datatype PC =
    | Idle
    | WantDict(op: Op)
    | CheckFlag(op: Op)
    | WantLock(op: Op)
    | GiveDictBack(op: Op)
    | Working(op: Op)
    | Testing(woken: bool)
    | Asleep
    | Reacquire(woken: bool)
    | Signalling(x: Element)
    | Broadcasting
    | GiveLockBack(r: Result)
    | FinishDelete
    | Refuse

  datatype State = State(
    queue: seq<Element>,
    deleted: bool,
    dict: Option<Tid>,
    lock: Option<Tid>,
    waitset: set<Tid>,
    threads: seq<PC>,
    added: seq<Element>,
    taken: seq<Element>)

  predicate HoldsDict(pc: PC) {
    || pc.CheckFlag? || pc.WantLock? || pc.GiveDictBack? || pc.Refuse?
    || pc.Broadcasting? || pc.FinishDelete? || pc == Working(Delete) || pc == GiveLockBack(Deleted)
  }

  predicate HoldsLock(pc: PC) {
    pc.GiveDictBack? || pc.Working? || pc.Testing? || pc.Signalling? || pc.Broadcasting? || pc.GiveLockBack?
  }

  predicate Enabled(st: State, t: Tid) {
    && t < |st.threads|
    && match st.threads[t]
       case Idle => false
       case WantDict(_) => st.dict.None?
       case WantLock(_) => st.lock.None?
       case Reacquire(_) => st.lock.None?
       case Asleep => t !in st.waitset
       case _ => true
  }

  function Put(st: State, t: Tid, pc: PC): State
    requires t < |st.threads|
  {
    st.(threads := st.threads[t := pc])
  }

  /** pthread_cond_signal releases one of the waiting threads, if there is one. */
  ghost function Signal(waitset: set<Tid>): set<Tid> {
    if waitset == {} then {} else var u :| u in waitset; waitset - {u}
  }

  /** A thread that is going to work on the queue; the deletion keeps the dictionary's lock. */
  function Begin(op: Op): PC {
    if op.Delete? then Working(op) else GiveDictBack(op)
  }

  /** The test of the wait loop and what follows. */
  function TestStep(st: State, t: Tid): State
    requires t < |st.threads|
  {
    if st.queue == [] && !st.deleted then Put(st.(lock := None, waitset := st.waitset + {t}), t, Asleep)
    else if st.deleted then Put(st, t, GiveLockBack(QueueDeleted))
    else TakeHead(st, t)
  }

  function TakeHead(st: State, t: Tid): State
    requires t < |st.threads| && st.queue != []
  {
    Put(st.(queue := st.queue[1..], taken := st.taken + [st.queue[0]]), t, GiveLockBack(Dequeued(st.queue[0])))
  }

  function WorkStep(st: State, t: Tid, op: Op): State
    requires t < |st.threads|
  {
    match op
    case Enqueue(x) => Put(st.(queue := st.queue + [x], added := st.added + [x]), t, Signalling(x))
    case Dequeue(wait) =>
      if st.queue == [] then
        if wait then Put(st, t, Testing(false)) else Put(st, t, GiveLockBack(QueueEmpty))
      else if st.deleted then Put(st, t, GiveLockBack(QueueDeleted))
      else TakeHead(st, t)
    case Delete => Put(st.(deleted := true), t, Broadcasting)
  }

  ghost function Step(st: State, t: Tid): State
    requires Enabled(st, t)
  {
    match st.threads[t]
    case Idle => st
    case WantDict(op) => Put(st.(dict := Some(t)), t, CheckFlag(op))
    case CheckFlag(op) => Put(st, t, if st.deleted then Refuse else WantLock(op))
    case Refuse => Put(st.(dict := None), t, Idle)
    case WantLock(op) => Put(st.(lock := Some(t)), t, Begin(op))
    case GiveDictBack(op) => Put(st.(dict := None), t, Working(op))
    case Working(op) => WorkStep(st, t, op)
    case Testing(_) => TestStep(st, t)
    case Asleep => Put(st, t, Reacquire(true))
    case Reacquire(woken) => Put(st.(lock := Some(t)), t, Testing(woken))
    case Signalling(_) => Put(st.(waitset := Signal(st.waitset)), t, GiveLockBack(Enqueued))
    case Broadcasting => Put(st.(waitset := {}), t, GiveLockBack(Deleted))
    case GiveLockBack(r) => Put(st.(lock := None), t, if r.Deleted? then FinishDelete else Idle)
    case FinishDelete => Put(st.(dict := None), t, Idle)
  }

  predicate CanCall(st: State, t: Tid) { t < |st.threads| && st.threads[t].Idle? }

  /** A wait may end without a signal. */
  predicate CanWake(st: State, t: Tid) { t < |st.threads| && st.threads[t].Asleep? && t in st.waitset }

  function Wake(st: State, t: Tid): State
    requires CanWake(st, t)
  {
    Put(st.(waitset := st.waitset - {t}), t, Reacquire(false))
  }

  ghost predicate Next(st: State, st2: State) {
    || (exists t :: Enabled(st, t) && st2 == Step(st, t))
    || (exists t, op :: CanCall(st, t) && st2 == Put(st, t, WantDict(op)))
    || (exists t :: CanWake(st, t) && st2 == Wake(st, t))
  }

  ghost predicate Init(st: State) {
    && st.queue == [] && !st.deleted && st.dict.None? && st.lock.None? && st.waitset == {}
    && st.added == [] && st.taken == [] && forall t: Tid :: t < |st.threads| ==> st.threads[t].Idle?
  }

  ghost predicate NextAt(sts: seq<State>, i: nat)
    requires i + 1 < |sts|
  {
    Next(sts[i], sts[i + 1])
  }

  ghost predicate Behaviour(sts: seq<State>) {
    sts != [] && Init(sts[0]) && forall i: nat :: i + 1 < |sts| ==> NextAt(sts, i)
  }

  // ---------- the invariant ----------

  function PcAt(threads: seq<PC>, t: Tid): PC { if t < |threads| then threads[t] else Idle }

  /** What the locks, the wait set and the flag say about one thread. */
  ghost predicate ThreadOk(st: State, t: Tid) {
    var pc := PcAt(st.threads, t);
    && (st.dict == Some(t) <==> HoldsDict(pc))
    && (st.lock == Some(t) <==> HoldsLock(pc))
    && (t in st.waitset ==> pc.Asleep?)
    && (pc.Broadcasting? ==> st.deleted)
    && (pc.WantLock? || pc.GiveDictBack? || pc.Working? || pc.Signalling? ==> !st.deleted)
    && (pc.GiveDictBack? ==> !pc.op.Delete?)
  }

  /** Released from its wait, and the queue not tested since. */
  predicate OnItsWay(pc: PC, waits: bool) {
    (pc.Asleep? && !waits) || pc == Reacquire(true) || pc == Testing(true)
  }

  ghost function Released(st: State): set<Tid> {
    set t: Tid | 0 <= t < |st.threads| && OnItsWay(PcAt(st.threads, t), t in st.waitset)
  }

  predicate AboutToSignal(st: State) {
    st.lock.Some? && PcAt(st.threads, st.lock.value).Signalling?
  }

  /** While somebody waits for a signal, there are no more elements than threads on their way to
      take one, but for the one that is just being announced. */
  ghost predicate EnoughReleased(st: State) {
    st.waitset != {} && !st.deleted ==> |st.queue| <= |Released(st)| + if AboutToSignal(st) then 1 else 0
  }

  predicate AboutToBroadcast(st: State) {
    st.lock.Some? && PcAt(st.threads, st.lock.value).Broadcasting?
  }

  ghost predicate Inv(st: State) {
    && (forall t: Tid :: ThreadOk(st, t))
    && st.added == st.taken + st.queue
    && (st.deleted && st.waitset != {} ==> AboutToBroadcast(st))
    && EnoughReleased(st)
  }

  // ---------- every step keeps it ----------

  ghost predicate ThreadsOk(st: State) { forall t: Tid :: ThreadOk(st, t) }

  lemma {:induction false} StepThreads(st: State, t: Tid)
    requires ThreadsOk(st) && Enabled(st, t) && (st.deleted && st.waitset != {} ==> AboutToBroadcast(st))
    ensures ThreadsOk(Step(st, t))
  {
    var st2 := Step(st, t);
    assert ThreadOk(st, t);
    forall u: Tid ensures ThreadOk(st2, u) {
      assert ThreadOk(st, u);
      assert u != t ==> PcAt(st2.threads, u) == PcAt(st.threads, u);
    }
  }

  /** How the set of released threads changes when only thread t moves. */
  lemma {:induction false} ReleasedByMove(st: State, st2: State, t: Tid)
    requires t < |st.threads| == |st2.threads|
    requires forall u: Tid :: u != t ==>
      PcAt(st2.threads, u) == PcAt(st.threads, u) && (u in st2.waitset <==> u in st.waitset)
    ensures Released(st2) - {t} == Released(st) - {t}
    ensures t in Released(st) <==> OnItsWay(PcAt(st.threads, t), t in st.waitset)
    ensures t in Released(st2) <==> OnItsWay(PcAt(st2.threads, t), t in st2.waitset)
    ensures |Released(st2)| == |Released(st)| - (if t in Released(st) then 1 else 0) +
      (if t in Released(st2) then 1 else 0)
  {
    forall u: Tid ensures u in Released(st2) - {t} <==> u in Released(st) - {t} {
      assert u != t ==> PcAt(st2.threads, u) == PcAt(st.threads, u) && (u in st2.waitset <==> u in st.waitset);
    }
    SizeWithout(Released(st), t);
    SizeWithout(Released(st2), t);
  }

  lemma {:induction false} SizeWithout(s: set<Tid>, t: Tid)
    ensures |s| == |s - {t}| + if t in s then 1 else 0
  {
    if t in s { assert s == (s - {t}) + {t}; } else { assert s == s - {t}; }
  }

  /** The signal releases one of the waiting threads. */
  lemma {:induction false} SignalReleases(st: State, t: Tid)
    requires ThreadsOk(st) && Enabled(st, t) && st.threads[t].Signalling? && st.waitset != {}
    ensures |Released(Step(st, t))| == |Released(st)| + 1
  {
    var st2 := Step(st, t);
    var u: Tid :| u in st.waitset && st2.waitset == st.waitset - {u};
    assert ThreadOk(st, u) && ThreadOk(st, t);
    forall v: Tid ensures v in Released(st2) <==> v in Released(st) || v == u {
      assert ThreadOk(st, v);
      assert v != t ==> PcAt(st2.threads, v) == PcAt(st.threads, v);
    }
    assert Released(st2) == Released(st) + {u};
  }

  lemma {:induction false} StepReleases(st: State, t: Tid)
    requires Inv(st) && Enabled(st, t)
    ensures EnoughReleased(Step(st, t))
  {
    var st2 := Step(st, t);
    assert ThreadOk(st, t);
    if st.threads[t].Signalling? {
      if st.waitset != {} { SignalReleases(st, t); }
    } else if !st.threads[t].Broadcasting? && !(st.threads[t].Testing? && st.queue == [] && !st.deleted) {
      StepThreads(st, t);
      ReleasedByMove(st, st2, t);
      SignalKept(st, st2, t);
    }
  }

  /** Who is about to signal does not change but by an enqueue. */
  lemma {:induction false} SignalKept(st: State, st2: State, t: Tid)
    requires ThreadsOk(st) && ThreadsOk(st2) && t < |st.threads| == |st2.threads|
    requires st2.threads == st.threads[t := st2.threads[t]] && !st.threads[t].Signalling?
    requires st2.threads[t].Signalling? || st.lock == st2.lock || HoldsLock(st.threads[t]) || HoldsLock(st2.threads[t])
    ensures st2.threads[t].Signalling? ==> AboutToSignal(st2) && !AboutToSignal(st)
    ensures !st2.threads[t].Signalling? ==> (AboutToSignal(st2) <==> AboutToSignal(st))
  {
    assert ThreadOk(st, t) && ThreadOk(st2, t);
    if st.lock.Some? { assert ThreadOk(st, st.lock.value) && ThreadOk(st2, st.lock.value); }
    if st2.lock.Some? { assert ThreadOk(st, st2.lock.value) && ThreadOk(st2, st2.lock.value); }
  }

  lemma {:induction false} StepBroadcasts(st: State, t: Tid)
    requires Inv(st) && Enabled(st, t)
    ensures var st2 := Step(st, t);
      && st2.added == st2.taken + st2.queue
      && (st2.deleted && st2.waitset != {} ==> AboutToBroadcast(st2))
  {
    assert ThreadOk(st, t);
    if st.lock.Some? { assert ThreadOk(st, st.lock.value); }
  }

  lemma {:induction false} StepKeeps(st: State, t: Tid)
    requires Inv(st) && Enabled(st, t)
    ensures Inv(Step(st, t))
  {
    StepThreads(st, t);
    StepReleases(st, t);
    StepBroadcasts(st, t);
  }

  /** A call, or the end of a wait without a signal. */
  lemma {:induction false} MoveKeeps(st: State, st2: State, t: Tid, pc: PC)
    requires Inv(st) && t < |st.threads| && !HoldsLock(st.threads[t]) && !HoldsDict(st.threads[t])
    requires st2 == Put(st.(waitset := st.waitset - {t}), t, pc)
    requires (st.threads[t].Idle? && pc.WantDict?)
      || (st.threads[t].Asleep? && t in st.waitset && pc == Reacquire(false))
    ensures Inv(st2)
  {
    forall u: Tid ensures ThreadOk(st2, u) {
      assert ThreadOk(st, u);
      assert u != t ==> PcAt(st2.threads, u) == PcAt(st.threads, u);
    }
    assert ThreadOk(st, t);
    ReleasedByMove(st, st2, t);
    SignalKept(st, st2, t);
    if st.lock.Some? { assert ThreadOk(st, st.lock.value); }
  }

  lemma {:induction false} NextKeeps(st: State, st2: State)
    requires Inv(st) && Next(st, st2)
    ensures Inv(st2)
  {
    if t :| Enabled(st, t) && st2 == Step(st, t) {
      StepKeeps(st, t);
    } else if t, op :| CanCall(st, t) && st2 == Put(st, t, WantDict(op)) {
      assert ThreadOk(st, t);
      assert st.waitset - {t} == st.waitset;
      MoveKeeps(st, st2, t, WantDict(op));
    } else {
      var t :| CanWake(st, t) && st2 == Wake(st, t);
      MoveKeeps(st, st2, t, Reacquire(false));
    }
  }

  lemma {:induction false} BehaviourKeeps(sts: seq<State>, i: nat)
    requires Behaviour(sts) && i < |sts|
    ensures Inv(sts[i])
  {
    if i > 0 {
      BehaviourKeeps(sts, i - 1);
      assert NextAt(sts, i - 1);
      NextKeeps(sts[i - 1], sts[i]);
    }
  }

  // ---------- what it means ----------

  /** First in, first out, over every interleaving: what was taken, and then what is there, is what
      was added, in the order in which it was added. */
  lemma {:induction false} FirstInFirstOut(sts: seq<State>, i: nat)
    requires Behaviour(sts) && i < |sts|
    ensures sts[i].taken + sts[i].queue == sts[i].added
  {
    BehaviourKeeps(sts, i);
  }

  /** No signal is lost. */
  lemma {:induction false} NoLostSignal(sts: seq<State>, i: nat)
    requires Behaviour(sts) && i < |sts| && sts[i].waitset != {} && !sts[i].deleted
    ensures |sts[i].queue| <= |Released(sts[i])| + if AboutToSignal(sts[i]) then 1 else 0
  {
    BehaviourKeeps(sts, i);
  }

  // ---------- what the answers mean ----------

  /** The operation that a thread is still to carry out. */
  function OpOf(pc: PC): Option<Op> {
    match pc
    case WantDict(op) => Some(op)
    case CheckFlag(op) => Some(op)
    case WantLock(op) => Some(op)
    case GiveDictBack(op) => Some(op)
    case Working(op) => Some(op)
    case Testing(_) => Some(Dequeue(true))
    case Asleep => Some(Dequeue(true))
    case Reacquire(_) => Some(Dequeue(true))
    case Signalling(x) => Some(Enqueue(x))
    case Broadcasting => Some(Delete)
    case _ => None
  }

  /** The answers that an operation can get. */
  predicate Fits(op: Op, r: Result) {
    match r
    case Enqueued => op.Enqueue?
    case Dequeued(_) => op.Dequeue?
    case QueueEmpty => op == Dequeue(false)
    case QueueDeleted => op.Dequeue?
    case Deleted => op.Delete?
  }

  /** A thread keeps its operation until it has an answer that fits, or is refused because the queue
      is deleted. */
  lemma {:induction false} StepServes(st: State, t: Tid)
    requires Inv(st) && Enabled(st, t) && OpOf(st.threads[t]).Some?
    ensures var op := OpOf(st.threads[t]); var pc2 := Step(st, t).threads[t];
      OpOf(pc2) == op || (pc2.Refuse? && st.deleted) || (pc2.GiveLockBack? && Fits(op.value, pc2.r))
  {
    assert ThreadOk(st, t);
  }

  predicate LastIs(xs: seq<Element>, x: Element) { xs != [] && xs[|xs| - 1] == x }

  /** While a thread has the lock and its answer, the answer is true: the element it returns is the
      one just taken, the one it announces is the one just added. */
  predicate TrueAnswer(st: State, pc: PC) {
    && (pc.Signalling? ==> LastIs(st.added, pc.x))
    && (pc.GiveLockBack? ==>
          match pc.r
          case Enqueued => st.added != []
          case Dequeued(x) => LastIs(st.taken, x)
          case QueueEmpty => st.queue == []
          case QueueDeleted => st.deleted
          case Deleted => st.deleted)
  }

  ghost predicate AnswersTrue(st: State) {
    forall t: Tid :: TrueAnswer(st, PcAt(st.threads, t))
  }

  lemma {:induction false} StepAnswers(st: State, t: Tid, u: Tid)
    requires Inv(st) && Enabled(st, t) && AnswersTrue(st)
    ensures TrueAnswer(Step(st, t), PcAt(Step(st, t).threads, u))
  {
    assert ThreadOk(st, t) && ThreadOk(st, u);
    assert TrueAnswer(st, PcAt(st.threads, t)) && TrueAnswer(st, PcAt(st.threads, u));
  }

  lemma {:induction false} NextAnswers(st: State, st2: State)
    requires Inv(st) && Next(st, st2) && AnswersTrue(st)
    ensures AnswersTrue(st2)
  {
    if t :| Enabled(st, t) && st2 == Step(st, t) {
      forall u: Tid ensures TrueAnswer(st2, PcAt(st2.threads, u)) { StepAnswers(st, t, u); }
    } else {
      forall u: Tid ensures TrueAnswer(st2, PcAt(st2.threads, u)) { assert TrueAnswer(st, PcAt(st.threads, u)); }
    }
  }

  /** In every reachable state every answer is true. */
  lemma {:induction false} AnswersAreTrue(sts: seq<State>, i: nat)
    requires Behaviour(sts) && i < |sts|
    ensures AnswersTrue(sts[i])
  {
    if i > 0 {
      AnswersAreTrue(sts, i - 1);
      BehaviourKeeps(sts, i - 1);
      assert NextAt(sts, i - 1);
      NextAnswers(sts[i - 1], sts[i]);
    }
  }

  lemma {:induction false} DeletedStep(st: State, st2: State)
    requires Inv(st) && Next(st, st2) && st.deleted
    ensures st2.deleted && st2.added == st.added && st2.taken == st.taken && st2.queue == st.queue
  {
    if t :| Enabled(st, t) && st2 == Step(st, t) { assert ThreadOk(st, t); }
  }

  /** Once the deletion flag is set nothing is added and nothing is returned any more, and nobody
      is left asleep when the deletion gives the lock back. */
  lemma {:induction false} NothingAfterDeletion(sts: seq<State>, i: nat, j: nat)
    requires Behaviour(sts) && i <= j < |sts| && sts[i].deleted
    ensures sts[j].deleted && sts[j].added == sts[i].added && sts[j].taken == sts[i].taken
      && sts[j].queue == sts[i].queue
    ensures !AboutToBroadcast(sts[j]) ==> sts[j].waitset == {}
  {
    BehaviourKeeps(sts, j);
    if i < j {
      NothingAfterDeletion(sts, i, j - 1);
      BehaviourKeeps(sts, j - 1);
      assert NextAt(sts, j - 1);
      DeletedStep(sts[j - 1], sts[j]);
    }
  }

  lemma {:induction false} SomebodyGoes(st: State, t: Tid)
    requires Inv(st) && t < |st.threads| && !st.threads[t].Idle? && t !in st.waitset
    ensures exists u: Tid :: Enabled(st, u)
  {
    if st.lock.Some? {
      assert ThreadOk(st, st.lock.value);
      assert Enabled(st, st.lock.value);
    } else if st.dict.Some? {
      assert ThreadOk(st, st.dict.value);
      assert Enabled(st, st.dict.value);
    } else {
      assert ThreadOk(st, t);
      assert Enabled(st, t);
    }
  }

  /** No deadlock: unless every thread is idle or waits for a signal, some thread can go on; and it can
      whenever somebody waits for an element that is there, or in a queue that is deleted. */
  lemma {:induction false} NoDeadlock(sts: seq<State>, i: nat, t: Tid)
    requires Behaviour(sts) && i < |sts| && t < |sts[i].threads| && !sts[i].threads[t].Idle?
    requires t in sts[i].waitset ==> sts[i].queue != [] || sts[i].deleted
    ensures exists u: Tid :: Enabled(sts[i], u)
  {
    var st := sts[i];
    BehaviourKeeps(sts, i);
    if t !in st.waitset {
      SomebodyGoes(st, t);
    } else if st.deleted {
      assert ThreadOk(st, st.lock.value);
      SomebodyGoes(st, st.lock.value);
    } else if AboutToSignal(st) {
      assert ThreadOk(st, st.lock.value);
      SomebodyGoes(st, st.lock.value);
    } else {
      assert Released(st) != {} by { assert |Released(st)| > 0; }
      var u :| u in Released(st);
      assert ThreadOk(st, u);
      SomebodyGoes(st, u);
    }
  }
}
