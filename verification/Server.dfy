/** The server: a main thread that selects on the descriptors of its clients, a queue, workers that
    serve one request at a time and keep what they still have to do as a list of tasks, and a pipe
    back to the main thread. Claims about shutdown are left out: no signal has arrived. */
module Server {
  import opened StoreTypes
  import opened StoreSpec
  import opened StoreInvariant
  import opened Waiting

  /** The message that tells the main thread that a client has gone. */
  const GONE := -1

  /** `Serve` reads and answers one request; `Notify` tells woken clients, and with `own` a failure
      is held against the client whose request is served; `Finish` hands the descriptor back or
      closes it; `Leave` is FileSystem_evictClient; `SayGone` writes -1; `HangUp` closes. */
  datatype Task =
    | Serve(c: Client)
    | Notify(clients: seq<Client>, own: bool)
    | Finish(c: Client)
    | Leave(c: Client)
    | SayGone(c: Client)
    | HangUp(c: Client)

  datatype Worker = Worker(tasks: seq<Task>, closing: bool)

  /** `system` holds the listening socket, the pipe the workers write to and the pipe of the signal
      handler. `watched` is the part of the select set that belongs to clients; `ready` and `cursor`
      are the result of the last select and how far it has been scanned. `open` is the kernel's view
      of the connections. `lost` collects descriptors that nobody will ever serve again. */
  datatype Server = Server(
    listener: int,
    messages: int,
    system: set<int>,
    store: Store,
    open: set<Client>,
    watched: set<Client>,
    fdNum: int,
    ready: set<int>,
    cursor: int,
    connected: int,
    queue: seq<Client>,
    pipe: seq<int>,
    workers: seq<Worker>,
    lost: seq<Client>)

  // ---------- the steps ----------

  datatype Action =
    | Select(ready: set<int>)
    | Visit(accepted: Client)
    | Dequeue(w: nat)
    | Drop(w: nat)
    | Answer(w: nat, op: Op, broken: bool)
    | Tell(w: nat, sent: bool)
    | Proceed(w: nat)

  function Give(s: Server, w: nat, tasks: seq<Task>, closing: bool): Server
    requires w < |s.workers|
  {
    s.(workers := s.workers[w := Worker(tasks, closing)])
  }

  predicate FreshDescriptor(s: Server, c: Client) {
    c > 0 && c !in s.open && c !in s.system
  }

  predicate CanVisit(s: Server, accepted: Client) {
    && s.cursor <= s.fdNum
    && (s.cursor in s.ready && s.cursor == s.listener ==> FreshDescriptor(s, accepted))
    && (s.cursor in s.ready && s.cursor == s.messages && s.cursor != s.listener ==> s.pipe != [])
  }

  /** One round of the scan over the descriptors. */
  function VisitNext(s: Server, accepted: Client): Server
    requires CanVisit(s, accepted)
  {
    var fd := s.cursor;
    var t := s.(cursor := fd + 1);
    if fd !in s.ready then t
    else if fd == s.listener then
      t.(open := s.open + {accepted}, connected := s.connected + 1,
         watched := s.watched + {accepted}, fdNum := Max(s.fdNum, accepted))
    else if fd == s.messages then
      var m := s.pipe[0];
      if m == GONE then t.(pipe := s.pipe[1..], connected := s.connected - 1)
      else t.(pipe := s.pipe[1..], watched := s.watched + {m}, fdNum := Max(s.fdNum, m))
    else
      t.(watched := s.watched - {fd}, fdNum := if fd == s.fdNum then s.fdNum - 1 else s.fdNum,
         queue := s.queue + [fd])
  }

  predicate Busy(s: Server, w: nat) {
    w < |s.workers| && s.workers[w].tasks != []
  }

  predicate Serving(s: Server, w: nat) {
    Busy(s, w) && s.workers[w].tasks[0].Serve?
  }

  predicate Telling(s: Server, w: nat) {
    Busy(s, w) && s.workers[w].tasks[0].Notify? && s.workers[w].tasks[0].clients != []
  }

  /** One request was run by the store: a client that has to wait for a lock is kept by the store,
      every other one gets its answer, and then the woken clients are told. */
  function Answered(s: Server, w: nat, op: Op, store: Store, r: Reply, broken: bool): Server
    requires Serving(s, w)
  {
    var rest := s.workers[w].tasks[1..];
    var t := s.(store := store);
    if Joined(op, r) != [] then Give(t, w, rest, false)
    else Give(t, w, [Notify(Woken(r), op.Append?), Finish(s.workers[w].tasks[0].c)] + rest, broken)
  }

  function AnswerNext(s: Server, w: nat, op: Op, broken: bool): Server
    requires Shape(s.store) && Serving(s, w)
  {
    var (store, r) := Exec(s.store, op);
    Answered(s, w, op, store, r, broken)
  }

  /** A woken client is told; when that fails the client is evicted and its connection closed, and
      the clients behind it in the list are forgotten. */
  function TellNext(s: Server, w: nat, sent: bool): Server
    requires Telling(s, w)
  {
    var Worker(tasks, closing) := s.workers[w];
    var Notify(clients, own) := tasks[0];
    if sent then
      Give(s, w, [Notify(clients[1..], own)] + tasks[1..], closing).(pipe := s.pipe + [clients[0]])
    else
      Give(s, w, [Leave(clients[0])] + tasks[1..], closing || own).(lost := s.lost + clients[1..])
  }

  function Finished(s: Server, w: nat): Server
    requires Busy(s, w) && s.workers[w].tasks[0].Finish?
  {
    var Worker(tasks, closing) := s.workers[w];
    if closing then Give(s, w, [Leave(tasks[0].c)] + tasks[1..], false)
    else Give(s, w, tasks[1..], false).(pipe := s.pipe + [tasks[0].c])
  }

  /** The client has left the store, which woke others. */
  function Left(s: Server, w: nat, store: Store, r: Reply): Server
    requires Busy(s, w) && s.workers[w].tasks[0].Leave?
  {
    var Worker(tasks, closing) := s.workers[w];
    Give(s, w, [Notify(Woken(r), false), SayGone(tasks[0].c)] + tasks[1..], closing).(store := store)
  }

  function SaidGone(s: Server, w: nat): Server
    requires Busy(s, w) && s.workers[w].tasks[0].SayGone?
  {
    var Worker(tasks, closing) := s.workers[w];
    Give(s, w, [HangUp(tasks[0].c)] + tasks[1..], closing).(pipe := s.pipe + [GONE])
  }

  function HungUp(s: Server, w: nat): Server
    requires Busy(s, w) && s.workers[w].tasks[0].HangUp?
  {
    var Worker(tasks, closing) := s.workers[w];
    Give(s, w, tasks[1..], closing).(open := s.open - {tasks[0].c})
  }

  function ProceedNext(s: Server, w: nat): Server
    requires Shape(s.store) && Busy(s, w) && !Serving(s, w) && !Telling(s, w)
  {
    match s.workers[w].tasks[0]
    case Notify(_, _) => Give(s, w, s.workers[w].tasks[1..], s.workers[w].closing)
    case Finish(_) => Finished(s, w)
    case Leave(c) =>
      var (store, r) := Exec(s.store, EvictClient(c));
      Left(s, w, store, r)
    case SayGone(_) => SaidGone(s, w)
    case HangUp(_) => HungUp(s, w)
  }

  /** select returns when something can be read, and then reports all that can: so the pipe if it
      is not empty, and clients and the listening socket as they please. */
  ghost predicate CanAct(s: Server, a: Action) {
    Shape(s.store) &&
    match a
    case Select(ready) =>
      && s.cursor > s.fdNum && ready != {}
      && ready <= s.watched + {s.listener, s.messages}
      && (s.messages in ready <==> s.pipe != [])
    case Visit(accepted) => CanVisit(s, accepted)
    case Dequeue(w) => w < |s.workers| && !Busy(s, w) && s.queue != []
    case Drop(w) => Serving(s, w)
    case Answer(w, op, _) => Serving(s, w) && op.c == s.workers[w].tasks[0].c && !op.EvictClient?
    case Tell(w, _) => Telling(s, w)
    case Proceed(w) => Busy(s, w) && !Serving(s, w) && !Telling(s, w)
  }

  function Act(s: Server, a: Action): Server
    requires CanAct(s, a)
  {
    match a
    case Select(ready) => s.(ready := ready, cursor := 0)
    case Visit(accepted) => VisitNext(s, accepted)
    case Dequeue(w) => Give(s, w, [Serve(s.queue[0])], false).(queue := s.queue[1..])
    case Drop(w) => Give(s, w, [Finish(s.workers[w].tasks[0].c)] + s.workers[w].tasks[1..], true)
    case Answer(w, op, broken) => AnswerNext(s, w, op, broken)
    case Tell(w, sent) => TellNext(s, w, sent)
    case Proceed(w) => ProceedNext(s, w)
  }

  ghost predicate CanRun(s: Server, acts: seq<Action>)
    decreases |acts|
  {
    acts != [] ==> CanAct(s, acts[0]) && CanRun(Act(s, acts[0]), acts[1..])
  }

  ghost function After(s: Server, acts: seq<Action>): Server
    requires CanRun(s, acts)
    decreases |acts|
  {
    if acts == [] then s else After(Act(s, acts[0]), acts[1..])
  }

  ghost predicate Initial(s: Server) {
    && 0 < s.store.maxSize && 0 < s.store.maxFiles
    && s.store == Empty(s.store.maxSize, s.store.maxFiles, s.store.policy)
    && s.listener in s.system && s.messages in s.system && s.listener != s.messages
    && (forall x :: x in s.system ==> 0 <= x <= s.fdNum)
    && s.open == {} && s.watched == {} && s.ready == {} && s.cursor > s.fdNum
    && s.connected == 0 && s.queue == [] && s.pipe == [] && s.lost == []
    && (forall w :: w in s.workers ==> w == Worker([], false))
  }

  // ---------- where the descriptors are ----------

  function Clients(t: Task): seq<Client> {
    if t.Notify? then t.clients else [t.c]
  }

  function InTasks(k: Client -> bool, ts: seq<Task>): nat {
    if ts == [] then 0 else Count(k, Clients(ts[0])) + InTasks(k, ts[1..])
  }

  function InHands(k: Client -> bool): Worker -> nat {
    (w: Worker) => InTasks(k, w.tasks)
  }

  function HangUps(ts: seq<Task>): nat {
    if ts == [] then 0 else (if ts[0].HangUp? then 1 else 0) + HangUps(ts[1..])
  }

  /** The clients that were announced as gone and whose descriptor is still to be closed. */
  function Hanging(): Worker -> nat {
    (w: Worker) => HangUps(w.tasks)
  }

  function Sum(m: Worker -> nat, ws: seq<Worker>): nat {
    if ws == [] then 0 else m(ws[0]) + Sum(m, ws[1..])
  }

  /** How often a descriptor is found in the select set, the queue, the hands of the workers, the
      pipe, the lock queues of the files, and among the lost ones. */
  function Places(s: Server, c: Client): nat
    requires Shape(s.store)
  {
    (if c in s.watched then 1 else 0) + Count(Is(c), s.queue) + Sum(InHands(Is(c)), s.workers) +
    (if c == GONE then 0 else Count(Is(c), s.pipe)) + WaitingAt(Is(c), s.store) + Count(Is(c), s.lost)
  }

  /** Every open connection is in exactly one place, and nothing else is in any. */
  ghost predicate OnePlace(s: Server)
    requires Shape(s.store)
  {
    forall c :: Places(s, c) == if c in s.open then 1 else 0
  }

  /** The counter of the main thread: the open connections, without those that were announced as
      gone, and with those whose announcement is still in the pipe. */
  ghost predicate CounterExact(s: Server) {
    s.connected == |s.open| - Sum(Hanging(), s.workers) + Count(Is(GONE), s.pipe)
  }

  predicate Mentions(f: FileState, c: Client) {
    c != NOBODY && (f.lockedBy == c || f.canWrite == c || c in f.waiters || c in f.openers)
  }

  function Partings(c: Client, ts: seq<Task>): nat {
    if ts == [] then 0
    else (if (ts[0].SayGone? || ts[0].HangUp?) && ts[0].c == c then 1 else 0) + Partings(c, ts[1..])
  }

  /** The client has left the store, and its connection is still to be closed. */
  function Parting(c: Client): Worker -> nat {
    (w: Worker) => Partings(c, w.tasks)
  }

  ghost predicate Member(s: Server, c: Client) {
    c in s.open && Sum(Parting(c), s.workers) == 0
  }

  /** Every id stored in a file belongs to an open connection that is not about to be closed. */
  ghost predicate IdsOpen(s: Server) {
    forall p, c :: p in s.store.tab && Mentions(s.store.tab[p], c) ==> Member(s, c)
  }

  /** The bound for select covers the whole set, and what the scan has still to visit is in the set. */
  ghost predicate Selectable(s: Server) {
    && s.listener in s.system && s.messages in s.system && s.listener != s.messages
    && (forall x :: x in s.system ==> 0 <= x <= s.fdNum)
    && (forall x :: x in s.watched ==> x <= s.fdNum)
    && (forall x :: x in s.open ==> 0 < x && x !in s.system)
    && (forall x :: x in s.ready && x >= s.cursor ==> x in s.watched || x == s.listener || x == s.messages)
    && (s.messages in s.ready && s.messages >= s.cursor ==> s.pipe != [])
  }

  ghost predicate ServerInv(s: Server) {
    && Inv(s.store) && OnePlace(s) && CounterExact(s) && IdsOpen(s) && Selectable(s)
  }

  // ---------- sums over the workers ----------

  lemma {:induction false} SumUpdate(m: Worker -> nat, ws: seq<Worker>, i: nat, w: Worker)
    requires i < |ws|
    ensures Sum(m, ws[i := w]) == Sum(m, ws) - m(ws[i]) + m(w)
  {
    if i == 0 {
      assert ws[i := w][1..] == ws[1..];
    } else {
      SumUpdate(m, ws[1..], i - 1, w);
      assert ws[i := w][1..] == ws[1..][i - 1 := w];
    }
  }

  lemma {:induction false} SumAtLeast(m: Worker -> nat, ws: seq<Worker>, i: nat)
    requires i < |ws|
    ensures Sum(m, ws) >= m(ws[i])
  {
    if i > 0 { SumAtLeast(m, ws[1..], i - 1); }
  }

  lemma {:induction false} SumZero(m: Worker -> nat, ws: seq<Worker>)
    requires forall w :: w in ws ==> m(w) == 0
    ensures Sum(m, ws) == 0
  {
    if ws != [] { SumZero(m, ws[1..]); }
  }

  lemma {:induction false} SumBelow(m: Worker -> nat, n: Worker -> nat, ws: seq<Worker>)
    requires forall w :: w in ws ==> m(w) <= n(w)
    ensures Sum(m, ws) <= Sum(n, ws)
  {
    if ws != [] { SumBelow(m, n, ws[1..]); }
  }

  lemma {:induction false} PartingsInHands(c: Client, ts: seq<Task>)
    ensures Partings(c, ts) <= InTasks(Is(c), ts)
  {
    if ts != [] { PartingsInHands(c, ts[1..]); }
  }

  /** A client whose request is being served is not about to be closed by anybody. */
  lemma {:induction false} ServedIsMember(s: Server, w: nat)
    requires ServerInv(s) && Serving(s, w)
    ensures Member(s, s.workers[w].tasks[0].c)
  {
    var ws := s.workers;
    var c := ws[w].tasks[0].c;
    var rest := ws[w].(tasks := ws[w].tasks[1..]);
    forall x | x in ws[w := rest] ensures Parting(c)(x) <= InHands(Is(c))(x) { PartingsInHands(c, x.tasks); }
    SumBelow(Parting(c), InHands(Is(c)), ws[w := rest]);
    SumUpdate(Parting(c), ws, w, rest);
    SumUpdate(InHands(Is(c)), ws, w, rest);
    assert Count(Is(c), [c]) == 1;
    assert Places(s, c) >= Sum(InHands(Is(c)), ws);
  }

  // ---------- what a step does to the places ----------

  /** A descriptor's places and its being open change together. */
  ghost predicate Moved(s: Server, t: Server, c: Client)
    requires Shape(s.store) && Shape(t.store)
  {
    Places(t, c) - (if c in t.open then 1 else 0) == Places(s, c) - if c in s.open then 1 else 0
  }

  lemma {:induction false} AcceptMoves(s: Server, accepted: Client, c: Client)
    requires CanVisit(s, accepted) && s.cursor in s.ready && s.cursor == s.listener
    requires Shape(s.store) && accepted !in s.watched
    ensures Moved(s, VisitNext(s, accepted), c)
  {
  }

  lemma {:induction false} MessageMoves(s: Server, accepted: Client, c: Client)
    requires CanVisit(s, accepted) && s.cursor in s.ready && s.cursor == s.messages && s.cursor != s.listener
    requires Shape(s.store) && (s.pipe[0] == GONE || s.pipe[0] !in s.watched)
    ensures Moved(s, VisitNext(s, accepted), c)
  {
  }

  lemma {:induction false} ForwardMoves(s: Server, accepted: Client, c: Client)
    requires CanVisit(s, accepted) && s.cursor in s.ready && s.cursor != s.messages && s.cursor != s.listener
    requires Shape(s.store) && s.cursor in s.watched
    ensures Moved(s, VisitNext(s, accepted), c)
  {
    CountConcat(Is(c), s.queue, [s.cursor]);
  }

  lemma {:induction false} PlacesOf(s: Server, c: Client)
    requires ServerInv(s)
    ensures Places(s, c) == if c in s.open then 1 else 0
  {
  }

  lemma {:induction false} VisitMoves(s: Server, accepted: Client, c: Client)
    requires ServerInv(s) && CanVisit(s, accepted)
    ensures Moved(s, VisitNext(s, accepted), c)
  {
    if s.cursor in s.ready {
      if s.cursor == s.listener {
        PlacesOf(s, accepted);
        AcceptMoves(s, accepted, c);
      } else if s.cursor == s.messages {
        PlacesOf(s, s.pipe[0]);
        MessageMoves(s, accepted, c);
      } else {
        ForwardMoves(s, accepted, c);
      }
    }
  }

  lemma {:induction false} GiveMoves(s: Server, w: nat, ts: seq<Task>, closing: bool, k: Client -> bool)
    requires w < |s.workers|
    ensures Sum(InHands(k), Give(s, w, ts, closing).workers) ==
            Sum(InHands(k), s.workers) - InTasks(k, s.workers[w].tasks) + InTasks(k, ts)
  {
    SumUpdate(InHands(k), s.workers, w, Worker(ts, closing));
  }

  lemma {:induction false} InTasksCons(k: Client -> bool, t: Task, ts: seq<Task>)
    ensures InTasks(k, [t] + ts) == Count(k, Clients(t)) + InTasks(k, ts)
  {
    assert ([t] + ts)[1..] == ts;
  }

  lemma {:induction false} DequeueMoves(s: Server, w: nat, c: Client)
    requires CanAct(s, Dequeue(w))
    ensures Moved(s, Act(s, Dequeue(w)), c)
  {
    GiveMoves(s, w, [Serve(s.queue[0])], false, Is(c));
    InTasksCons(Is(c), Serve(s.queue[0]), []);
    assert s.queue == [s.queue[0]] + s.queue[1..];
    CountConcat(Is(c), [s.queue[0]], s.queue[1..]);
  }

  lemma {:induction false} DropMoves(s: Server, w: nat, c: Client)
    requires CanAct(s, Drop(w))
    ensures Moved(s, Act(s, Drop(w)), c)
  {
    var ts := s.workers[w].tasks;
    GiveMoves(s, w, [Finish(ts[0].c)] + ts[1..], true, Is(c));
    InTasksCons(Is(c), Finish(ts[0].c), ts[1..]);
  }

  /** The tasks that follow an answer. */
  lemma {:induction false} AnswerTasks(k: Client -> bool, s: Server, w: nat, woken: seq<Client>, own: bool,
      broken: bool)
    requires Serving(s, w)
    ensures var ts := s.workers[w].tasks;
      && Sum(InHands(k), Give(s, w, ts[1..], false).workers) + Count(k, [ts[0].c]) == Sum(InHands(k), s.workers)
      && Sum(InHands(k), Give(s, w, [Notify(woken, own), Finish(ts[0].c)] + ts[1..], broken).workers)
         == Sum(InHands(k), s.workers) + Count(k, woken)
  {
    var ts := s.workers[w].tasks;
    GiveMoves(s, w, ts[1..], false, k);
    var done := [Notify(woken, own), Finish(ts[0].c)] + ts[1..];
    assert done == [Notify(woken, own)] + ([Finish(ts[0].c)] + ts[1..]);
    GiveMoves(s, w, done, broken, k);
    InTasksCons(k, Finish(ts[0].c), ts[1..]);
    InTasksCons(k, Notify(woken, own), [Finish(ts[0].c)] + ts[1..]);
  }

  lemma {:induction false} AnswerMoves(s: Server, w: nat, op: Op, store: Store, r: Reply, broken: bool, c: Client)
    requires Serving(s, w) && op.c == s.workers[w].tasks[0].c && Shape(s.store) && Shape(store)
    requires var k := Is(c);
      WaitingAt(k, s.store) + Count(k, Joined(op, r)) == WaitingAt(k, store) + Count(k, Woken(r))
    ensures Moved(s, Answered(s, w, op, store, r, broken), c)
  {
    AnswerTasks(Is(c), s, w, Woken(r), op.Append?, broken);
    assert Joined(op, r) != [] ==> Woken(r) == [];
  }

  lemma {:induction false} SendMoves(s: Server, w: nat, c: Client)
    requires Shape(s.store) && Telling(s, w) && s.workers[w].tasks[0].clients[0] != GONE
    ensures Moved(s, TellNext(s, w, true), c)
  {
    var Worker(ts, closing) := s.workers[w];
    var Notify(clients, own) := ts[0];
    GiveMoves(s, w, [Notify(clients[1..], own)] + ts[1..], closing, Is(c));
    InTasksCons(Is(c), Notify(clients[1..], own), ts[1..]);
    CountConcat(Is(c), s.pipe, [clients[0]]);
    CountFirst(Is(c), clients);
  }

  lemma {:induction false} FailMoves(s: Server, w: nat, c: Client)
    requires Shape(s.store) && Telling(s, w)
    ensures Moved(s, TellNext(s, w, false), c)
  {
    var Worker(ts, closing) := s.workers[w];
    var Notify(clients, own) := ts[0];
    GiveMoves(s, w, [Leave(clients[0])] + ts[1..], closing || own, Is(c));
    InTasksCons(Is(c), Leave(clients[0]), ts[1..]);
    CountConcat(Is(c), s.lost, clients[1..]);
    CountFirst(Is(c), clients);
  }

  lemma {:induction false} CountFirst(k: Client -> bool, xs: seq<Client>)
    requires xs != []
    ensures Count(k, xs) == Count(k, [xs[0]]) + Count(k, xs[1..])
  {
    assert [xs[0]][1..] == [];
  }

  /** A client in the hands of a worker is open and in no other place. */
  lemma {:induction false} InHandsAlone(s: Server, w: nat, c: Client)
    requires ServerInv(s) && Busy(s, w) && c in Clients(s.workers[w].tasks[0])
    ensures c in s.open && c > 0
    ensures WaitingAt(Is(c), s.store) == 0
    ensures Sum(InHands(Is(c)), s.workers) == 1 && InTasks(Is(c), s.workers[w].tasks[1..]) == 0
    ensures Count(Is(c), Clients(s.workers[w].tasks[0])) == 1
  {
    SumAtLeast(InHands(Is(c)), s.workers, w);
    CountIs(Clients(s.workers[w].tasks[0]), c);
    assert Places(s, c) == if c in s.open then 1 else 0;
  }

  lemma {:induction false} LeaveTasks(k: Client -> bool, s: Server, w: nat, d: Client, woken: seq<Client>,
      closing: bool)
    requires Busy(s, w) && s.workers[w].tasks[0] == Leave(d)
    ensures Sum(InHands(k), Give(s, w, [Notify(woken, false), SayGone(d)] + s.workers[w].tasks[1..], closing).workers)
      == Sum(InHands(k), s.workers) + Count(k, woken)
  {
    var rest := s.workers[w].tasks[1..];
    var notify := Notify(woken, false);
    var next := [notify, SayGone(d)] + rest;
    assert next == [notify] + ([SayGone(d)] + rest);
    GiveMoves(s, w, next, closing, k);
    InTasksCons(k, SayGone(d), rest);
    InTasksCons(k, notify, [SayGone(d)] + rest);
  }

  lemma {:induction false} LeaveMoves(s: Server, w: nat, store: Store, r: Reply, c: Client)
    requires Busy(s, w) && s.workers[w].tasks[0].Leave? && Shape(s.store) && Shape(store)
    requires WaitingAt(Is(c), s.store) == WaitingAt(Is(c), store) + Count(Is(c), Woken(r))
    ensures Moved(s, Left(s, w, store, r), c)
  {
    LeaveTasks(Is(c), s, w, s.workers[w].tasks[0].c, Woken(r), s.workers[w].closing);
  }

  lemma {:induction false} FinishMoves(s: Server, w: nat, d: Client, c: Client)
    requires Shape(s.store) && Busy(s, w) && s.workers[w].tasks[0] == Finish(d) && d != GONE
    ensures Moved(s, Finished(s, w), c)
  {
    var Worker(ts, closing) := s.workers[w];
    if closing {
      GiveMoves(s, w, [Leave(d)] + ts[1..], false, Is(c));
      InTasksCons(Is(c), Leave(d), ts[1..]);
    } else {
      GiveMoves(s, w, ts[1..], false, Is(c));
      CountConcat(Is(c), s.pipe, [d]);
    }
  }

  lemma {:induction false} SayGoneMoves(s: Server, w: nat, d: Client, c: Client)
    requires Shape(s.store) && Busy(s, w) && s.workers[w].tasks[0] == SayGone(d)
    ensures Moved(s, SaidGone(s, w), c)
  {
    var Worker(ts, closing) := s.workers[w];
    GiveMoves(s, w, [HangUp(d)] + ts[1..], closing, Is(c));
    InTasksCons(Is(c), HangUp(d), ts[1..]);
    CountConcat(Is(c), s.pipe, [GONE]);
  }

  lemma {:induction false} HangUpMoves(s: Server, w: nat, d: Client, c: Client)
    requires Shape(s.store) && Busy(s, w) && d in s.open && s.workers[w].tasks[0] == HangUp(d)
    ensures Moved(s, HungUp(s, w), c)
  {
    var Worker(ts, closing) := s.workers[w];
    GiveMoves(s, w, ts[1..], closing, Is(c));
    assert [d][1..] == [] && Count(Is(c), [d]) == if c == d then 1 else 0;
  }

  lemma {:induction false} DepartureMoves(s: Server, w: nat, d: Client, c: Client)
    requires ServerInv(s) && Busy(s, w) && s.workers[w].tasks[0] == Leave(d)
    ensures var (store, r) := Exec(s.store, EvictClient(d)); Moved(s, Left(s, w, store, r), c)
  {
    InHandsAlone(s, w, d);
    EvictClientConserves(Is(c), s.store, d);
    var (store, r) := Exec(s.store, EvictClient(d));
    LeaveMoves(s, w, store, r, c);
  }

  lemma {:induction false} ProceedMoves(s: Server, w: nat, c: Client)
    requires ServerInv(s) && CanAct(s, Proceed(w))
    ensures Moved(s, ProceedNext(s, w), c)
  {
    var Worker(ts, closing) := s.workers[w];
    if !ts[0].Notify? { InHandsAlone(s, w, ts[0].c); }
    match ts[0]
    case Notify(_, _) => GiveMoves(s, w, ts[1..], closing, Is(c));
    case Finish(d) => FinishMoves(s, w, d, c);
    case Leave(d) => DepartureMoves(s, w, d, c);
    case SayGone(d) => SayGoneMoves(s, w, d, c);
    case HangUp(d) => HangUpMoves(s, w, d, c);
  }

  lemma {:induction false} ActMoves(s: Server, a: Action, c: Client)
    requires ServerInv(s) && CanAct(s, a)
    ensures Moved(s, Act(s, a), c)
  {
    match a
    case Select(_) =>
    case Visit(accepted) => VisitMoves(s, accepted, c);
    case Dequeue(w) => DequeueMoves(s, w, c);
    case Drop(w) => DropMoves(s, w, c);
    case Answer(w, op, broken) =>
      InHandsAlone(s, w, op.c);
      WaitersConserved(Is(c), s.store, op);
      AnswerMoves(s, w, op, Exec(s.store, op).0, Exec(s.store, op).1, broken, c);
    case Tell(w, sent) =>
      InHandsAlone(s, w, s.workers[w].tasks[0].clients[0]);
      if sent { SendMoves(s, w, c); } else { FailMoves(s, w, c); }
    case Proceed(w) => ProceedMoves(s, w, c);
  }

  lemma {:induction false} ActKeepsPlaces(s: Server, a: Action)
    requires ServerInv(s) && CanAct(s, a)
    ensures OnePlace(Act(s, a))
  {
    forall c ensures Places(Act(s, a), c) == if c in Act(s, a).open then 1 else 0 { ActMoves(s, a, c); }
  }
}
