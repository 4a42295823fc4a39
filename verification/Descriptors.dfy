/** The conservation of descriptors over every run of the server, what it needs, and the end of
    every worker's work. */
module Descriptors {
  import opened StoreTypes
  import opened StoreSpec
  import opened StoreInvariant
  import opened Sequences
  import opened Locks
  import opened Waiting
  import opened Server

  // ---------- the ids in the files ----------

  lemma {:induction false} EffectMentions(f: FileState, e: Effect, p: Path, c: Client)
    requires Mentions(Apply(e, p, f).0, c)
    ensures c == e.c || Mentions(f, c)
  {
    Remove1Sub(f.openers, e.c);
  }

  lemma {:induction false} FileAfterMentions(op: Op, r: Reply, p: Path, f: FileState, c: Client)
    requires FileInv(f) && Named(op)
    requires Mentions(FileAfter(op, r, f), c)
    ensures c == op.c || Mentions(f, c)
    ensures op.EvictClient? ==> c != op.c
  {
    match op
    case Open(q, flags, d) =>
      if ValidFlags(flags) && !HasCreate(flags) { EffectMentions(f, OpenIt(d, HasLock(flags), true, None), q, c); }
    case Read(q, d) => EffectMentions(f, ReadIt(d), q, c);
    case Lock(q, d) => EffectMentions(f, LockIt(d), q, c);
    case Unlock(q, d) => EffectMentions(f, UnlockIt(d), q, c);
    case Close(q, d) => EffectMentions(f, CloseIt(d), q, c);
    case EvictClient(d) =>
      NoDupRemove1(f.openers, d);
      NoDupRemove1(f.waiters, d);
      if f.lockedBy == d && f.waiters != [] { NoDupRemove1(f.waiters[1..], d); }
    case _ =>
  }

  /** A file that an operation leaves in the store was there before, or it was created. */
  lemma {:induction false} NewFileMentions(s: Store, op: Op, p: Path, c: Client)
    requires Inv(s) && Named(op) && p !in s.tab && p in Exec(s, op).0.tab
    requires Mentions(Exec(s, op).0.tab[p], c)
    ensures c == op.c && !op.EvictClient?
  {
    match op
    case Open(q, flags, d) => CreatedMentions(s, q, flags, d, p, c);
    case Append(q, content, _, _) =>
      if |content| != 0 && |content| < s.maxSize && q in s.tab { AppendLoopForgets(s, q, content, [], p); }
    case _ =>
  }

  lemma {:induction false} CreatedMentions(s: Store, q: Path, flags: int, d: Client, p: Path, c: Client)
    requires Inv(s) && d != NOBODY && p !in s.tab && p in ExecOpen(s, q, flags, d).0.tab
    requires Mentions(ExecOpen(s, q, flags, d).0.tab[p], c)
    ensures c == d
  {
    if q !in s.tab && ValidFlags(flags) && HasCreate(flags) {
      if s.num == s.maxFiles {
        if Pick(s, None).Some? {
          var (v, s1) := Pick(s, None).value;
          OpenNewTab(StoreSpec.Drop(s1, v).0, q, d, HasLock(flags), Some(StoreSpec.Drop(s1, v).1));
        }
      } else {
        OpenNewTab(s, q, d, HasLock(flags), None);
      }
    }
  }

  /** An operation writes no id into a file except the one of the client that asked for it, and a
      departure takes the id out of every file. */
  lemma {:induction false} ExecMentions(s: Store, op: Op, p: Path, c: Client)
    requires Inv(s) && Named(op) && p in Exec(s, op).0.tab && Mentions(Exec(s, op).0.tab[p], c)
    ensures c == op.c || (p in s.tab && Mentions(s.tab[p], c))
    ensures op.EvictClient? ==> c != op.c
  {
    if p in s.tab {
      ExecOneFile(s, op, p);
      var f, r := s.tab[p], Exec(s, op).1;
      if Concerns(op, p) { FileAfterMentions(op, r, p, f, c); }
    } else {
      NewFileMentions(s, op, p, c);
    }
  }

  lemma {:induction false} GivePartings(s: Server, w: nat, ts: seq<Task>, closing: bool, c: Client)
    requires w < |s.workers|
    ensures Sum(Parting(c), Give(s, w, ts, closing).workers) ==
            Sum(Parting(c), s.workers) - Partings(c, s.workers[w].tasks) + Partings(c, ts)
  {
    SumUpdate(Parting(c), s.workers, w, Worker(ts, closing));
  }

  lemma {:induction false} PartingsCons(c: Client, t: Task, ts: seq<Task>)
    ensures Partings(c, [t] + ts) == (if (t.SayGone? || t.HangUp?) && t.c == c then 1 else 0) + Partings(c, ts)
  {
    assert ([t] + ts)[1..] == ts;
  }

  predicate Leaves(s: Server, a: Action, c: Client) {
    a.Proceed? && Busy(s, a.w) && s.workers[a.w].tasks[0] == Leave(c)
  }

  lemma {:induction false} ReplacedTask(s: Server, w: nat, t: Task, closing: bool, c: Client)
    requires Busy(s, w)
    ensures var ts := s.workers[w].tasks;
      Sum(Parting(c), Give(s, w, [t] + ts[1..], closing).workers) + Partings(c, [ts[0]]) ==
      Sum(Parting(c), s.workers) + Partings(c, [t])
  {
    var ts := s.workers[w].tasks;
    GivePartings(s, w, [t] + ts[1..], closing, c);
    PartingsCons(c, t, ts[1..]);
  }

  lemma {:induction false} RemovedTask(s: Server, w: nat, closing: bool, c: Client)
    requires Busy(s, w)
    ensures var ts := s.workers[w].tasks;
      Sum(Parting(c), Give(s, w, ts[1..], closing).workers) + Partings(c, [ts[0]]) == Sum(Parting(c), s.workers)
  {
    GivePartings(s, w, s.workers[w].tasks[1..], closing, c);
  }

  lemma {:induction false} TwoTasks(s: Server, w: nat, t: Task, u: Task, closing: bool, c: Client)
    requires Busy(s, w)
    ensures var ts := s.workers[w].tasks;
      Sum(Parting(c), Give(s, w, [t, u] + ts[1..], closing).workers) + Partings(c, [ts[0]]) ==
      Sum(Parting(c), s.workers) + Partings(c, [t]) + Partings(c, [u])
  {
    var ts := s.workers[w].tasks;
    assert [t, u] + ts[1..] == [t] + ([u] + ts[1..]);
    GivePartings(s, w, [t, u] + ts[1..], closing, c);
    PartingsCons(c, u, ts[1..]);
    PartingsCons(c, t, [u] + ts[1..]);
  }

  /** Only its own departure makes a client lose its standing. */
  lemma {:induction false} MemberKept(s: Server, a: Action, c: Client)
    requires CanAct(s, a) && Member(s, c) && !Leaves(s, a, c)
    ensures Member(Act(s, a), c)
  {
    match a
    case Select(_) =>
    case Visit(_) =>
    case Dequeue(w) => GivePartings(s, w, [Serve(s.queue[0])], false, c);
    case Drop(w) => ReplacedTask(s, w, Finish(s.workers[w].tasks[0].c), true, c);
    case Answer(w, op, broken) =>
      var r := Exec(s.store, op).1;
      RemovedTask(s, w, false, c);
      TwoTasks(s, w, Notify(Woken(r), op.Append?), Finish(s.workers[w].tasks[0].c), broken, c);
    case Tell(w, sent) => MemberTold(s, w, sent, c);
    case Proceed(w) => MemberProceeds(s, w, c);
  }

  lemma {:induction false} MemberTold(s: Server, w: nat, sent: bool, c: Client)
    requires Telling(s, w) && Member(s, c)
    ensures Member(TellNext(s, w, sent), c)
  {
    var Worker(ts, closing) := s.workers[w];
    ReplacedTask(s, w, Notify(ts[0].clients[1..], ts[0].own), closing, c);
    ReplacedTask(s, w, Leave(ts[0].clients[0]), closing || ts[0].own, c);
  }

  lemma {:induction false} MemberProceeds(s: Server, w: nat, c: Client)
    requires CanAct(s, Proceed(w)) && Member(s, c) && s.workers[w].tasks[0] != Leave(c)
    ensures Member(ProceedNext(s, w), c)
  {
    var Worker(ts, closing) := s.workers[w];
    RemovedTask(s, w, closing, c);
    match ts[0]
    case Notify(_, _) =>
    case Finish(d) =>
      ReplacedTask(s, w, Leave(d), false, c);
      RemovedTask(s, w, false, c);
    case Leave(d) =>
      TwoTasks(s, w, Notify(Woken(Exec(s.store, EvictClient(d)).1), false), SayGone(d), closing, c);
    case SayGone(d) => ReplacedTask(s, w, HangUp(d), closing, c);
    case HangUp(d) =>
  }

  lemma {:induction false} StoreStays(s: Server, a: Action)
    requires CanAct(s, a) && !a.Answer? && !(a.Proceed? && s.workers[a.w].tasks[0].Leave?)
    ensures Act(s, a).store == s.store && forall c :: !Leaves(s, a, c)
  {
  }

  lemma {:induction false} AnswerMentions(s: Server, a: Action, p: Path, c: Client)
    requires ServerInv(s) && CanAct(s, a) && a.Answer?
    requires var t := Exec(s.store, a.op).0; p in t.tab && Mentions(t.tab[p], c)
    ensures Member(s, c)
  {
    ServedIsMember(s, a.w);
    InHandsAlone(s, a.w, a.op.c);
    ExecMentions(s.store, a.op, p, c);
  }

  lemma {:induction false} LeaveMentions(s: Server, w: nat, d: Client, p: Path, c: Client)
    requires ServerInv(s) && Busy(s, w) && s.workers[w].tasks[0] == Leave(d)
    requires var t := Exec(s.store, EvictClient(d)).0; p in t.tab && Mentions(t.tab[p], c)
    ensures Member(s, c) && c != d
  {
    InHandsAlone(s, w, d);
    ExecMentions(s.store, EvictClient(d), p, c);
  }

  lemma {:induction false} MentionedBefore(s: Server, a: Action, p: Path, c: Client)
    requires ServerInv(s) && CanAct(s, a)
    requires p in Act(s, a).store.tab && Mentions(Act(s, a).store.tab[p], c)
    ensures Member(s, c) && !Leaves(s, a, c)
  {
    if a.Answer? {
      AnswerMentions(s, a, p, c);
    } else if a.Proceed? && s.workers[a.w].tasks[0].Leave? {
      LeaveMentions(s, a.w, s.workers[a.w].tasks[0].c, p, c);
    } else {
      StoreStays(s, a);
    }
  }

  lemma {:induction false} ActKeepsIds(s: Server, a: Action)
    requires ServerInv(s) && CanAct(s, a)
    ensures IdsOpen(Act(s, a))
  {
    var t := Act(s, a);
    forall p, c | p in t.store.tab && Mentions(t.store.tab[p], c) ensures Member(t, c) {
      MentionedBefore(s, a, p, c);
      MemberKept(s, a, c);
    }
  }

  // ---------- the counter, the bound of select, the store ----------

  lemma {:induction false} HangUpsCons(t: Task, ts: seq<Task>)
    ensures HangUps([t] + ts) == (if t.HangUp? then 1 else 0) + HangUps(ts)
  {
    assert ([t] + ts)[1..] == ts;
  }

  lemma {:induction false} GiveHanging(s: Server, w: nat, ts: seq<Task>, closing: bool)
    requires w < |s.workers|
    ensures Sum(Hanging(), Give(s, w, ts, closing).workers) ==
            Sum(Hanging(), s.workers) - HangUps(s.workers[w].tasks) + HangUps(ts)
  {
    SumUpdate(Hanging(), s.workers, w, Worker(ts, closing));
  }

  lemma {:induction false} AnswerCounts(s: Server, w: nat, op: Op, store: Store, r: Reply, broken: bool)
    requires Serving(s, w) && CounterExact(s)
    ensures CounterExact(Answered(s, w, op, store, r, broken))
  {
    var ts := s.workers[w].tasks;
    var t, u := Notify(Woken(r), op.Append?), Finish(ts[0].c);
    assert [t, u] + ts[1..] == [t] + ([u] + ts[1..]);
    HangUpsCons(u, ts[1..]);
    HangUpsCons(t, [u] + ts[1..]);
    GiveHanging(s, w, [t, u] + ts[1..], broken);
    GiveHanging(s, w, ts[1..], false);
  }

  lemma {:induction false} TellCounts(s: Server, w: nat, sent: bool)
    requires Telling(s, w) && s.workers[w].tasks[0].clients[0] != GONE && CounterExact(s)
    ensures CounterExact(TellNext(s, w, sent))
  {
    var Worker(ts, closing) := s.workers[w];
    var Notify(clients, own) := ts[0];
    HangUpsCons(Notify(clients[1..], own), ts[1..]);
    HangUpsCons(Leave(clients[0]), ts[1..]);
    GiveHanging(s, w, [Notify(clients[1..], own)] + ts[1..], closing);
    GiveHanging(s, w, [Leave(clients[0])] + ts[1..], closing || own);
    CountConcat(Is(GONE), s.pipe, [clients[0]]);
  }

  lemma {:induction false} FinishCounts(s: Server, w: nat, d: Client)
    requires Busy(s, w) && CounterExact(s) && s.workers[w].tasks[0] == Finish(d) && d != GONE
    ensures CounterExact(Finished(s, w))
  {
    var rest := s.workers[w].tasks[1..];
    GiveHanging(s, w, rest, false);
    GiveHanging(s, w, [Leave(d)] + rest, false);
    HangUpsCons(Leave(d), rest);
    CountConcat(Is(GONE), s.pipe, [d]);
  }

  lemma {:induction false} LeaveCounts(s: Server, w: nat, d: Client, store: Store, r: Reply)
    requires Busy(s, w) && CounterExact(s) && s.workers[w].tasks[0] == Leave(d)
    ensures CounterExact(Left(s, w, store, r))
  {
    var rest := s.workers[w].tasks[1..];
    var t := Notify(Woken(r), false);
    assert [t, SayGone(d)] + rest == [t] + ([SayGone(d)] + rest);
    HangUpsCons(SayGone(d), rest);
    HangUpsCons(t, [SayGone(d)] + rest);
    GiveHanging(s, w, [t, SayGone(d)] + rest, s.workers[w].closing);
  }

  lemma {:induction false} SayGoneCounts(s: Server, w: nat, d: Client)
    requires Busy(s, w) && CounterExact(s) && s.workers[w].tasks[0] == SayGone(d)
    ensures CounterExact(SaidGone(s, w))
  {
    var rest := s.workers[w].tasks[1..];
    HangUpsCons(HangUp(d), rest);
    GiveHanging(s, w, [HangUp(d)] + rest, s.workers[w].closing);
    CountConcat(Is(GONE), s.pipe, [GONE]);
    assert Count(Is(GONE), [GONE]) == 1;
  }

  lemma {:induction false} ProceedCounts(s: Server, w: nat)
    requires CanAct(s, Proceed(w)) && CounterExact(s)
    requires !s.workers[w].tasks[0].Notify? ==> s.workers[w].tasks[0].c in s.open && s.workers[w].tasks[0].c != GONE
    ensures CounterExact(ProceedNext(s, w))
  {
    var Worker(ts, closing) := s.workers[w];
    match ts[0]
    case Notify(_, _) => GiveHanging(s, w, ts[1..], closing);
    case Finish(d) => FinishCounts(s, w, d);
    case Leave(d) =>
      var (store, r) := Exec(s.store, EvictClient(d));
      LeaveCounts(s, w, d, store, r);
    case SayGone(d) => SayGoneCounts(s, w, d);
    case HangUp(d) => GiveHanging(s, w, ts[1..], closing);
  }

  lemma {:induction false} AcceptCounts(s: Server, accepted: Client)
    requires CanVisit(s, accepted) && CounterExact(s) && s.cursor in s.ready && s.cursor == s.listener
    ensures CounterExact(VisitNext(s, accepted))
  {
    assert |s.open + {accepted}| == |s.open| + 1;
  }

  lemma {:induction false} MessageCounts(s: Server, accepted: Client)
    requires CanVisit(s, accepted) && CounterExact(s)
    requires s.cursor in s.ready && s.cursor == s.messages && s.cursor != s.listener
    ensures CounterExact(VisitNext(s, accepted))
  {
    assert Count(Is(GONE), s.pipe) == (if s.pipe[0] == GONE then 1 else 0) + Count(Is(GONE), s.pipe[1..]);
  }

  lemma {:induction false} VisitCounts(s: Server, accepted: Client)
    requires CanVisit(s, accepted) && CounterExact(s)
    ensures CounterExact(VisitNext(s, accepted))
  {
    if s.cursor in s.ready && s.cursor == s.listener {
      AcceptCounts(s, accepted);
    } else if s.cursor in s.ready && s.cursor == s.messages {
      MessageCounts(s, accepted);
    }
  }

  lemma {:induction false} DropCounts(s: Server, w: nat)
    requires CanAct(s, Drop(w)) && CounterExact(s)
    ensures CounterExact(Act(s, Drop(w)))
  {
    var ts := s.workers[w].tasks;
    HangUpsCons(Finish(ts[0].c), ts[1..]);
    GiveHanging(s, w, [Finish(ts[0].c)] + ts[1..], true);
  }

  lemma {:induction false} ActCounts(s: Server, a: Action)
    requires ServerInv(s) && CanAct(s, a)
    ensures CounterExact(Act(s, a))
  {
    match a
    case Select(_) =>
    case Visit(accepted) => VisitCounts(s, accepted);
    case Dequeue(w) => GiveHanging(s, w, [Serve(s.queue[0])], false);
    case Drop(w) => DropCounts(s, w);
    case Answer(w, op, broken) => AnswerCounts(s, w, op, Exec(s.store, op).0, Exec(s.store, op).1, broken);
    case Tell(w, sent) =>
      InHandsAlone(s, w, s.workers[w].tasks[0].clients[0]);
      TellCounts(s, w, sent);
    case Proceed(w) =>
      if !s.workers[w].tasks[0].Notify? { InHandsAlone(s, w, s.workers[w].tasks[0].c); }
      ProceedCounts(s, w);
  }

  /** A message from the pipe is an open connection, unless it is -1. */
  lemma {:induction false} MessageIsOpen(s: Server)
    requires ServerInv(s) && s.pipe != [] && s.pipe[0] != GONE
    ensures s.pipe[0] in s.open
  {
    assert Places(s, s.pipe[0]) == if s.pipe[0] in s.open then 1 else 0;
  }

  lemma {:induction false} WatchedIsOpen(s: Server, x: Client)
    requires ServerInv(s) && x in s.watched
    ensures x in s.open
  {
    assert Places(s, x) == if x in s.open then 1 else 0;
  }

  lemma {:induction false} VisitKeepsSelectable(s: Server, accepted: Client)
    requires Selectable(s) && CanVisit(s, accepted)
    requires forall x :: x in s.watched ==> x in s.open
    requires s.pipe != [] && s.pipe[0] != GONE ==> s.pipe[0] in s.open
    ensures Selectable(VisitNext(s, accepted))
  {
  }

  predicate ByWorker(a: Action) { !a.Select? && !a.Visit? }

  lemma {:induction false} SelectableStays(s: Server, t: Server)
    requires Selectable(s) && t.cursor >= s.cursor && t.open <= s.open && s.pipe <= t.pipe
    requires t == s.(store := t.store, open := t.open, cursor := t.cursor, queue := t.queue, pipe := t.pipe,
                     workers := t.workers, lost := t.lost)
    ensures Selectable(t)
  {
  }

  /** What a worker leaves to the main thread: it closes connections and writes into the pipe. */
  ghost predicate MainKept(s: Server, t: Server) {
    (&& t == s.(store := t.store, open := t.open, queue := t.queue, pipe := t.pipe, workers := t.workers,
      lost := t.lost)
     && t.open <= s.open && s.pipe <= t.pipe) == true
  }

  lemma {:induction false} AnswerFields(s: Server, w: nat, op: Op, broken: bool)
    requires Shape(s.store) && Serving(s, w)
    ensures MainKept(s, AnswerNext(s, w, op, broken))
  {
    var (store, r) := Exec(s.store, op);
    assert AnswerNext(s, w, op, broken) == Answered(s, w, op, store, r, broken);
  }

  lemma {:induction false} TellFields(s: Server, w: nat, sent: bool)
    requires Telling(s, w)
    ensures MainKept(s, TellNext(s, w, sent))
  {
  }

  lemma {:induction false} ProceedFields(s: Server, w: nat)
    requires Shape(s.store) && Busy(s, w) && !Serving(s, w) && !Telling(s, w)
    ensures MainKept(s, ProceedNext(s, w))
  {
  }

  lemma {:induction false} WorkerFields(s: Server, a: Action)
    requires CanAct(s, a) && ByWorker(a)
    ensures MainKept(s, Act(s, a))
  {
    match a
    case Answer(w, op, broken) => AnswerFields(s, w, op, broken);
    case Tell(w, sent) => TellFields(s, w, sent);
    case Proceed(w) => ProceedFields(s, w);
    case _ =>
  }

  lemma {:induction false} ActKeepsSelectable(s: Server, a: Action)
    requires ServerInv(s) && CanAct(s, a)
    ensures Selectable(Act(s, a))
  {
    if a.Visit? {
      if s.pipe != [] && s.pipe[0] != GONE { MessageIsOpen(s); }
      forall x | x in s.watched ensures x in s.open { WatchedIsOpen(s, x); }
      VisitKeepsSelectable(s, a.accepted);
    } else if ByWorker(a) {
      WorkerFields(s, a);
      SelectableStays(s, Act(s, a));
    }
  }

  lemma {:induction false} AnswerKeepsStore(s: Server, w: nat, op: Op, broken: bool)
    requires Inv(s.store) && Named(op) && Serving(s, w)
    ensures Inv(AnswerNext(s, w, op, broken).store)
  {
    ExecKeepsInv(s.store, op);
  }

  lemma {:induction false} ProceedKeepsStore(s: Server, w: nat)
    requires Inv(s.store) && CanAct(s, Proceed(w))
    requires s.workers[w].tasks[0].Leave? ==> s.workers[w].tasks[0].c != NOBODY
    ensures Inv(ProceedNext(s, w).store)
  {
    if s.workers[w].tasks[0].Leave? { EvictClientKeeps(s.store, s.workers[w].tasks[0].c); }
  }

  lemma {:induction false} ActKeepsStore(s: Server, a: Action)
    requires ServerInv(s) && CanAct(s, a)
    ensures Inv(Act(s, a).store)
  {
    if a.Answer? {
      InHandsAlone(s, a.w, a.op.c);
      AnswerKeepsStore(s, a.w, a.op, a.broken);
    } else if a.Proceed? {
      if s.workers[a.w].tasks[0].Leave? { InHandsAlone(s, a.w, s.workers[a.w].tasks[0].c); }
      ProceedKeepsStore(s, a.w);
    }
  }

  // ---------- every run ----------

  lemma {:induction false} ActKeeps(s: Server, a: Action)
    requires ServerInv(s) && CanAct(s, a)
    ensures ServerInv(Act(s, a))
  {
    ActKeepsStore(s, a);
    ActKeepsPlaces(s, a);
    ActCounts(s, a);
    ActKeepsIds(s, a);
    ActKeepsSelectable(s, a);
  }

  lemma {:induction false} InitialIsSound(s: Server)
    requires Initial(s)
    ensures ServerInv(s)
  {
    forall c ensures Places(s, c) == 0 { SumZero(InHands(Is(c)), s.workers); }
    SumZero(Hanging(), s.workers);
  }

  /** Over every run, whatever connections break: every open connection is in exactly one place or
      among the lost ones, the counter is exact, no file remembers a closed connection, and select
      is asked about the whole set. */
  lemma {:induction false} RunKeeps(s: Server, acts: seq<Action>)
    requires ServerInv(s) && CanRun(s, acts)
    ensures ServerInv(After(s, acts))
    decreases |acts|
  {
    if acts != [] {
      ActKeeps(s, acts[0]);
      RunKeeps(Act(s, acts[0]), acts[1..]);
    }
  }

  /** Where a descriptor can be: the set of select, the queue, the hands of the workers, the pipe, the
      lock queues of the files. It is found once, in all of them together. */
  ghost predicate InOnePlace(s: Server, c: Client)
    requires Shape(s.store)
  {
    var inSet := if c in s.watched then 1 else 0;
    inSet + Count(Is(c), s.queue) + Sum(InHands(Is(c)), s.workers) + Count(Is(c), s.pipe) +
      WaitingAt(Is(c), s.store) == 1
  }

  /** Exactly the descriptors of the open connections are in one place. */
  ghost predicate Conserved(s: Server)
    requires Shape(s.store)
  {
    forall c :: c in s.open <==> c != GONE && InOnePlace(s, c)
  }

  lemma {:induction false} ConservedIfNoneLost(s: Server)
    requires ServerInv(s)
    ensures Conserved(s) <==> s.lost == []
  {
    forall c ensures Places(s, c) == if c in s.open then 1 else 0 {}
    if s.lost != [] {
      var c := s.lost[0];
      CountIs(s.lost, c);
      assert c in s.open && c != GONE && !InOnePlace(s, c);
    } else {
      forall c ensures c in s.open <==> c != GONE && InOnePlace(s, c) {
        assert Places(s, c) == if c in s.open then 1 else 0;
      }
    }
  }

  lemma {:induction false} RunConcat(s: Server, xs: seq<Action>, ys: seq<Action>)
    requires CanRun(s, xs) && CanRun(After(s, xs), ys)
    ensures CanRun(s, xs + ys) && After(s, xs + ys) == After(After(s, xs), ys)
    decreases |xs|
  {
    if xs == [] {
      assert xs + ys == ys;
    } else {
      assert (xs + ys)[1..] == xs[1..] + ys;
      RunConcat(Act(s, xs[0]), xs[1..], ys);
    }
  }

  lemma {:induction false} RunCons(s: Server, a: Action, ys: seq<Action>)
    requires CanAct(s, a) && CanRun(Act(s, a), ys)
    ensures CanRun(s, [a] + ys) && After(s, [a] + ys) == After(Act(s, a), ys)
  {
    assert ([a] + ys)[1..] == ys;
  }

  /** A send to a woken client fails while others are still to be told. */
  predicate Abandons(s: Server, a: Action) {
    a.Tell? && !a.sent && Telling(s, a.w) && |s.workers[a.w].tasks[0].clients| > 1
  }

  ghost predicate AbandonsSomewhere(s: Server, acts: seq<Action>)
    requires CanRun(s, acts)
    decreases |acts|
  {
    acts != [] && (Abandons(s, acts[0]) || AbandonsSomewhere(Act(s, acts[0]), acts[1..]))
  }

  lemma {:induction false} LostWhere(s: Server, acts: seq<Action>)
    requires CanRun(s, acts)
    ensures s.lost <= After(s, acts).lost
    ensures After(s, acts).lost == s.lost <==> !AbandonsSomewhere(s, acts)
    decreases |acts|
  {
    if acts != [] { LostWhere(Act(s, acts[0]), acts[1..]); }
  }

  /** In every run of the server the descriptors are conserved exactly when no failing send to a
      woken client leaves others behind it untold. */
  lemma {:induction false} DescriptorsConserved(s: Server, acts: seq<Action>)
    requires Initial(s) && CanRun(s, acts)
    ensures Shape(After(s, acts).store)
    ensures Conserved(After(s, acts)) <==> !AbandonsSomewhere(s, acts)
  {
    InitialIsSound(s);
    RunKeeps(s, acts);
    LostWhere(s, acts);
    ConservedIfNoneLost(After(s, acts));
  }

  lemma {:induction false} NobodyAbandoned(s: Server, acts: seq<Action>)
    requires CanRun(s, acts) && forall a :: a in acts && a.Tell? ==> a.sent
    ensures !AbandonsSomewhere(s, acts)
    decreases |acts|
  {
    if acts != [] { NobodyAbandoned(Act(s, acts[0]), acts[1..]); }
  }

  /** In particular they are while every send to a woken client succeeds. */
  lemma {:induction false} ConservedWhileSendsSucceed(s: Server, acts: seq<Action>)
    requires Initial(s) && CanRun(s, acts) && forall a :: a in acts && a.Tell? ==> a.sent
    ensures Shape(After(s, acts).store) && Conserved(After(s, acts))
  {
    NobodyAbandoned(s, acts);
    DescriptorsConserved(s, acts);
  }

  /** A waiting client waits for one file, and is neither watched nor queued nor served. */
  lemma {:induction false} WaiterWaitsOnce(s: Server, c: Client) returns (p: Path)
    requires ServerInv(s) && WaitingAt(Is(c), s.store) > 0
    ensures p in s.store.tab && c in s.store.tab[p].waiters && c in s.open
    ensures forall q :: q in s.store.tab && c in s.store.tab[q].waiters ==> q == p
    ensures c !in s.watched && c !in s.queue && c !in s.lost && Sum(InHands(Is(c)), s.workers) == 0
  {
    assert Places(s, c) == if c in s.open then 1 else 0;
    CountIs(s.queue, c);
    CountIs(s.lost, c);
    p := WaitsForOneFile(s.store.order, s.store.tab, c);
  }

  // ---------- the end of the workers' work ----------

  function TaskLoad(t: Task): nat {
    match t
    case Serve(_) => 7
    case Notify(clients, _) => 4 * |clients| + 1
    case Finish(_) => 5
    case Leave(_) => 4
    case SayGone(_) => 2
    case HangUp(_) => 1
  }

  function TasksLoad(ts: seq<Task>): nat {
    if ts == [] then 0 else TaskLoad(ts[0]) + TasksLoad(ts[1..])
  }

  function Load(): Worker -> nat {
    (w: Worker) => TasksLoad(w.tasks)
  }

  /** What the workers can still do on their own: a client that waits may yet have to be told. */
  function WorkLeft(s: Server): nat
    requires Shape(s.store)
  {
    8 * |s.queue| + 4 * WaitingAt(Anyone(), s.store) + Sum(Load(), s.workers)
  }

  lemma {:induction false} LoadCons(t: Task, ts: seq<Task>)
    ensures TasksLoad([t] + ts) == TaskLoad(t) + TasksLoad(ts)
  {
    assert ([t] + ts)[1..] == ts;
  }

  lemma {:induction false} GiveLoad(s: Server, w: nat, ts: seq<Task>, closing: bool)
    requires w < |s.workers|
    ensures Sum(Load(), Give(s, w, ts, closing).workers) ==
            Sum(Load(), s.workers) - TasksLoad(s.workers[w].tasks) + TasksLoad(ts)
  {
    SumUpdate(Load(), s.workers, w, Worker(ts, closing));
  }

  lemma {:induction false} ReplacedLoad(s: Server, w: nat, t: Task, closing: bool)
    requires Busy(s, w)
    ensures var ts := s.workers[w].tasks;
      && Sum(Load(), Give(s, w, [t] + ts[1..], closing).workers) == Sum(Load(), s.workers) - TaskLoad(ts[0]) +
        TaskLoad(t)
      && Sum(Load(), Give(s, w, ts[1..], closing).workers) == Sum(Load(), s.workers) - TaskLoad(ts[0])
  {
    var ts := s.workers[w].tasks;
    GiveLoad(s, w, [t] + ts[1..], closing);
    GiveLoad(s, w, ts[1..], closing);
    LoadCons(t, ts[1..]);
  }

  lemma {:induction false} TwoLoads(s: Server, w: nat, t: Task, u: Task, closing: bool)
    requires Busy(s, w)
    ensures var ts := s.workers[w].tasks;
      Sum(Load(), Give(s, w, [t, u] + ts[1..], closing).workers) ==
      Sum(Load(), s.workers) - TaskLoad(ts[0]) + TaskLoad(t) + TaskLoad(u)
  {
    var ts := s.workers[w].tasks;
    assert [t, u] + ts[1..] == [t] + ([u] + ts[1..]);
    GiveLoad(s, w, [t, u] + ts[1..], closing);
    LoadCons(u, ts[1..]);
    LoadCons(t, [u] + ts[1..]);
  }

  lemma {:induction false} AnswerShrinks(s: Server, w: nat, op: Op, store: Store, r: Reply, broken: bool)
    requires Serving(s, w) && op.c == s.workers[w].tasks[0].c && Shape(s.store) && Shape(store)
    requires var k := Anyone();
      WaitingAt(k, s.store) + Count(k, Joined(op, r)) == WaitingAt(k, store) + Count(k, Woken(r))
    ensures WorkLeft(Answered(s, w, op, store, r, broken)) < WorkLeft(s)
  {
    CountAnyone(Woken(r));
    CountAnyone(Joined(op, r));
    TwoLoads(s, w, Notify(Woken(r), op.Append?), Finish(op.c), broken);
    ReplacedLoad(s, w, Finish(op.c), false);
  }

  lemma {:induction false} TellShrinks(s: Server, w: nat, sent: bool)
    requires Shape(s.store) && Telling(s, w)
    ensures WorkLeft(TellNext(s, w, sent)) < WorkLeft(s)
  {
    var Worker(ts, closing) := s.workers[w];
    var Notify(clients, own) := ts[0];
    ReplacedLoad(s, w, Notify(clients[1..], own), closing);
    ReplacedLoad(s, w, Leave(clients[0]), closing || own);
  }

  lemma {:induction false} LeaveShrinks(s: Server, w: nat, store: Store, r: Reply)
    requires Busy(s, w) && s.workers[w].tasks[0].Leave? && Shape(s.store) && Shape(store)
    requires WaitingAt(Anyone(), store) + Count(Anyone(), Woken(r)) <= WaitingAt(Anyone(), s.store)
    ensures WorkLeft(Left(s, w, store, r)) < WorkLeft(s)
  {
    CountAnyone(Woken(r));
    TwoLoads(s, w, Notify(Woken(r), false), SayGone(s.workers[w].tasks[0].c), s.workers[w].closing);
  }

  lemma {:induction false} ProceedShrinks(s: Server, w: nat)
    requires Inv(s.store) && CanAct(s, Proceed(w))
    requires s.workers[w].tasks[0].Leave? ==> s.workers[w].tasks[0].c != NOBODY
    ensures WorkLeft(ProceedNext(s, w)) < WorkLeft(s)
  {
    var Worker(ts, closing) := s.workers[w];
    match ts[0]
    case Notify(_, _) => ReplacedLoad(s, w, HangUp(0), closing);
    case Finish(d) => ReplacedLoad(s, w, Leave(d), false);
    case Leave(d) =>
      EvictClientConserves(Anyone(), s.store, d);
      var (store, r) := Exec(s.store, EvictClient(d));
      LeaveShrinks(s, w, store, r);
    case SayGone(d) => ReplacedLoad(s, w, HangUp(d), closing);
    case HangUp(d) => ReplacedLoad(s, w, HangUp(d), closing);
  }

  /** Every step of a worker uses some work up, whether the sends succeed or not: so the mutual
      recursion of evictClient and its callback ends, also when other workers interfere. */
  lemma {:induction false} WorkShrinks(s: Server, a: Action)
    requires ServerInv(s) && CanAct(s, a) && ByWorker(a)
    ensures WorkLeft(Act(s, a)) < WorkLeft(s)
  {
    match a
    case Dequeue(w) => GiveLoad(s, w, [Serve(s.queue[0])], false); LoadCons(Serve(s.queue[0]), []);
    case Drop(w) => ReplacedLoad(s, w, Finish(s.workers[w].tasks[0].c), true);
    case Answer(w, op, broken) =>
      InHandsAlone(s, w, op.c);
      WaitersConserved(Anyone(), s.store, op);
      AnswerShrinks(s, w, op, Exec(s.store, op).0, Exec(s.store, op).1, broken);
    case Tell(w, sent) => TellShrinks(s, w, sent);
    case Proceed(w) =>
      if s.workers[w].tasks[0].Leave? { InHandsAlone(s, w, s.workers[w].tasks[0].c); }
      ProceedShrinks(s, w);
  }

  lemma {:induction false} WorkersComeToRest(s: Server, acts: seq<Action>)
    requires ServerInv(s) && CanRun(s, acts) && forall a :: a in acts ==> ByWorker(a)
    ensures ServerInv(After(s, acts)) && |acts| + WorkLeft(After(s, acts)) <= WorkLeft(s)
    decreases |acts|
  {
    if acts != [] {
      ActKeeps(s, acts[0]);
      WorkShrinks(s, acts[0]);
      WorkersComeToRest(Act(s, acts[0]), acts[1..]);
    }
  }

  /** A worker that is not at rest can go on, and so can an idle one while the queue is not empty. */
  lemma {:induction false} WorkerGoesOn(s: Server, w: nat) returns (a: Action)
    requires ServerInv(s) && w < |s.workers| && (Busy(s, w) || s.queue != [])
    ensures ByWorker(a) && CanAct(s, a)
  {
    a := if !Busy(s, w) then Dequeue(w) else if Serving(s, w) then Drop(w)
         else if Telling(s, w) then Tell(w, true) else Proceed(w);
  }

  // ---------- the main thread ----------

  /** While it scans, while a message is in the pipe, and whenever one of the descriptors it watches
      or the listening socket can be read, the main thread can go on: it never blocks on the pipe and
      never visits a descriptor that is not in its set. */
  lemma {:induction false} MainGoesOn(s: Server, accepted: Client, readable: set<int>) returns (a: Action)
    requires ServerInv(s) && FreshDescriptor(s, accepted) && readable <= s.watched + {s.listener}
    requires s.cursor <= s.fdNum || s.pipe != [] || readable != {}
    ensures !ByWorker(a) && CanAct(s, a)
    ensures a.Select? ==> readable <= a.ready
    ensures a.Visit? && s.cursor in s.ready ==> s.cursor in s.watched + s.system
  {
    a := if s.cursor <= s.fdNum then Visit(accepted)
         else Select(if s.pipe == [] then readable else readable + {s.messages});
    assert readable <= readable + {s.messages};
    forall x | x in readable ensures x != s.messages {
      if x in s.watched { WatchedIsOpen(s, x); }
    }
  }

  /** Although the bound of the scan moves while it runs, no ready descriptor is passed over. */
  lemma {:induction false} ScanIsComplete(s: Server, x: int)
    requires ServerInv(s) && s.cursor > s.fdNum && x in s.ready
    ensures x < s.cursor
  {
  }

  predicate NoSelect(acts: seq<Action>) { forall a :: a in acts ==> !a.Select? }

  function Visits(acts: seq<Action>): nat {
    if acts == [] then 0 else (if acts[0].Visit? then 1 else 0) + Visits(acts[1..])
  }

  /** The descriptors that select can handle. */
  predicate Below(s: Server, bound: int) {
    s.fdNum < bound && forall c :: c in s.open ==> c < bound
  }

  lemma {:induction false} ActKeepsBelow(s: Server, a: Action, bound: int)
    requires ServerInv(s) && CanAct(s, a) && !a.Select? && Below(s, bound) && (a.Visit? ==> a.accepted < bound)
    ensures Below(Act(s, a), bound)
    ensures Act(s, a).cursor == s.cursor + if a.Visit? then 1 else 0
    ensures a.Visit? ==> s.cursor < bound
  {
    if ByWorker(a) {
      WorkerFields(s, a);
    } else if s.pipe != [] && s.pipe[0] != GONE {
      MessageIsOpen(s);
    }
  }

  /** A scan ends: it visits no more descriptors than select can handle, although accepted clients and
      messages raise its bound, and whatever the workers do meanwhile. */
  lemma {:induction false} ScanEnds(s: Server, acts: seq<Action>, bound: int)
    requires ServerInv(s) && CanRun(s, acts) && NoSelect(acts) && Below(s, bound) && s.cursor <= bound
    requires forall a :: a in acts && a.Visit? ==> a.accepted < bound
    ensures Visits(acts) <= bound - s.cursor
    decreases |acts|
  {
    if acts != [] {
      ActKeeps(s, acts[0]);
      ActKeepsBelow(s, acts[0], bound);
      ScanEnds(Act(s, acts[0]), acts[1..], bound);
    }
  }

  /** The scan has still to come to the pipe, where m is the first message. */
  ghost predicate Coming(s: Server, m: int) {
    (s.messages in s.ready && s.cursor <= s.messages && s.pipe != [] && s.pipe[0] == m) == true
  }

  predicate Arrived(s: Server, m: int) { m != GONE ==> m in s.watched }

  lemma {:induction false} PipeAct(s: Server, a: Action, m: int)
    requires ServerInv(s) && CanAct(s, a) && !a.Select? && Coming(s, m)
    ensures var t := Act(s, a);
      if a.Visit? && s.cursor == s.messages then Arrived(t, m) else Coming(t, m) && t.messages == s.messages
  {
    if ByWorker(a) { WorkerFields(s, a); }
  }

  lemma {:induction false} FirstActs(s: Server, acts: seq<Action>, j: nat)
    requires acts != [] && CanAct(s, acts[0]) && j < |acts| && CanRun(Act(s, acts[0]), acts[1..][..j])
    ensures CanRun(s, acts[..j + 1]) && After(s, acts[..j + 1]) == After(Act(s, acts[0]), acts[1..][..j])
  {
    assert acts[..j + 1] == [acts[0]] + acts[1..][..j];
    RunCons(s, acts[0], acts[1..][..j]);
  }

  lemma {:induction false} HeadIsTaken(s: Server, acts: seq<Action>, m: int) returns (k: nat)
    requires ServerInv(s) && CanRun(s, acts) && NoSelect(acts) && Coming(s, m)
    requires After(s, acts).cursor > s.messages
    ensures k < |acts| && CanRun(s, acts[..k + 1]) && Arrived(After(s, acts[..k + 1]), m)
    decreases |acts|
  {
    PipeAct(s, acts[0], m);
    if acts[0].Visit? && s.cursor == s.messages {
      k := 0;
      FirstActs(s, acts, 0);
    } else {
      ActKeeps(s, acts[0]);
      var j := HeadIsTaken(Act(s, acts[0]), acts[1..], m);
      FirstActs(s, acts, j + 1);
      k := j + 1;
    }
  }

  /** What a worker hands back gets back into the set: when select returns while a message is in the
      pipe, the scan that follows takes the first one, and a client in it is watched again. */
  lemma {:induction false} MessageGetsBack(s: Server, ready: set<int>, acts: seq<Action>) returns (k: nat)
    requires ServerInv(s) && s.pipe != [] && CanAct(s, Select(ready))
    requires var t := Act(s, Select(ready));
      CanRun(t, acts) && NoSelect(acts) && After(t, acts).cursor > After(t, acts).fdNum
    ensures var t := Act(s, Select(ready));
      k < |acts| && CanRun(t, acts[..k + 1]) && Arrived(After(t, acts[..k + 1]), s.pipe[0])
  {
    var t := Act(s, Select(ready));
    ActKeeps(s, Select(ready));
    RunKeeps(t, acts);
    SystemStays(t, acts);
    k := HeadIsTaken(t, acts, s.pipe[0]);
  }

  lemma {:induction false} SystemStays(s: Server, acts: seq<Action>)
    requires CanRun(s, acts)
    ensures After(s, acts).messages == s.messages && After(s, acts).system == s.system
    decreases |acts|
  {
    if acts != [] {
      var a := acts[0];
      if ByWorker(a) { WorkerFields(s, a); }
      SystemStays(Act(s, a), acts[1..]);
    }
  }

  // ---------- the order of the requests ----------

  /** The clients whose requests a step puts into the queue, and those that a worker begins to serve. */
  function QueueMoves(s: Server, a: Action): (seq<Client>, seq<Client>)
    requires CanAct(s, a)
  {
    var t := Act(s, a);
    (if a.Visit? && s.cursor in s.ready && s.cursor !in {s.listener, s.messages} then [s.cursor] else [],
     if a.Dequeue? && Serving(t, a.w) then [t.workers[a.w].tasks[0].c] else [])
  }

  ghost function Forwarded(s: Server, acts: seq<Action>): seq<Client>
    requires CanRun(s, acts)
    decreases |acts|
  {
    if acts == [] then [] else QueueMoves(s, acts[0]).0 + Forwarded(Act(s, acts[0]), acts[1..])
  }

  ghost function Begun(s: Server, acts: seq<Action>): seq<Client>
    requires CanRun(s, acts)
    decreases |acts|
  {
    if acts == [] then [] else QueueMoves(s, acts[0]).1 + Begun(Act(s, acts[0]), acts[1..])
  }

  lemma {:induction false} QueueStep(s: Server, a: Action)
    requires CanAct(s, a)
    ensures var (into, out) := QueueMoves(s, a); s.queue + into == out + Act(s, a).queue
  {
    if a.Dequeue? { assert s.queue == [s.queue[0]] + s.queue[1..]; }
    assert s.queue + [] == s.queue == [] + s.queue;
  }

  lemma {:induction false} Through(q: seq<Client>, into: seq<Client>, out: seq<Client>, q1: seq<Client>,
      into1: seq<Client>, out1: seq<Client>, q2: seq<Client>)
    requires q + into == out + q1 && q1 + into1 == out1 + q2
    ensures q + (into + into1) == (out + out1) + q2
  {
    assert q + (into + into1) == (q + into) + into1;
    assert (out + q1) + into1 == out + (q1 + into1);
    assert out + (out1 + q2) == (out + out1) + q2;
  }

  /** Requests are served in the order in which the main thread forwarded them, each once. */
  lemma {:induction false} ServedInOrder(s: Server, acts: seq<Action>)
    requires CanRun(s, acts)
    ensures s.queue + Forwarded(s, acts) == Begun(s, acts) + After(s, acts).queue
    decreases |acts|
  {
    if acts == [] {
      assert s.queue + [] == [] + s.queue;
    } else {
      var t := Act(s, acts[0]);
      QueueStep(s, acts[0]);
      ServedInOrder(t, acts[1..]);
      var (into, out) := QueueMoves(s, acts[0]);
      Through(s.queue, into, out, t.queue, Forwarded(t, acts[1..]), Begun(t, acts[1..]), After(t, acts[1..]).queue);
    }
  }
}
