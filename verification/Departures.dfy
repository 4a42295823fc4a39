/** The departure of a client as the code writes it: evictClient tells every client that gained a
    lock, and a client that cannot be told is evicted in turn. The recursion ends because every
    client that is told has stopped waiting, and it is what a worker of `Server` does task by task. */
module Departures {
  import opened StoreTypes
  import opened StoreSpec
  import opened StoreInvariant
  import opened Sequences
  import opened Locks
  import opened Waiting
  import opened Server
  import opened Descriptors
  import opened FileStore

  /** What the departure of clients changes. */
  datatype Net = Net(store: Store, pipe: seq<int>, open: set<Client>, lost: seq<Client>)

  function NetOf(s: Server): Net {
    Net(s.store, s.pipe, s.open, s.lost)
  }

  lemma {:induction false} HeirsAreNamed(tab: map<Path, FileState>, order: seq<Path>, c: Client)
    requires forall p :: p in order ==> p in tab && FileInv(tab[p])
    ensures NOBODY !in Heirs(tab, order, c)
  {
    if order != [] { HeirsAreNamed(tab, order[1..], c); }
  }

  /** The clients that gain a lock are real, and each of them has left a queue. */
  lemma {:induction false} GainedFacts(s: Store, c: Client)
    requires Inv(s) && c != NOBODY
    ensures var (t, r) := Exec(s, EvictClient(c));
      && Inv(t) && NOBODY !in Woken(r)
      && WaitingAt(Anyone(), t) + |Woken(r)| <= WaitingAt(Anyone(), s)
  {
    EvictClientKeeps(s, c);
    EvictClientConserves(Anyone(), s, c);
    EvictClientReply(s, c);
    CountAnyone(Woken(Exec(s, EvictClient(c)).1));
    HeirsAreNamed(s.tab, s.order, c);
    ReverseIn(Heirs(s.tab, s.order, c));
  }

  /** evictClient. */
  function Departed(n: Net, c: Client, broken: set<Client>): (r: Net)
    requires Inv(n.store) && c != NOBODY
    ensures Inv(r.store)
    decreases WaitingAt(Anyone(), n.store), 1
  {
    GainedFacts(n.store, c);
    var (store, reply) := Exec(n.store, EvictClient(c));
    Told(n.(store := store), Woken(reply), broken).0
  }

  /** Departure, the message -1, and the end of the connection. */
  function Gone(n: Net, c: Client, broken: set<Client>): (r: Net)
    requires Inv(n.store) && c != NOBODY
    ensures Inv(r.store)
    decreases WaitingAt(Anyone(), n.store), 2
  {
    var r := Departed(n, c, broken);
    r.(pipe := r.pipe + [GONE], open := r.open - {c})
  }

  /** A list of clients is told, up to the first one that cannot be; the flag says whether all were. */
  function Told(n: Net, clients: seq<Client>, broken: set<Client>): (r: (Net, bool))
    requires Inv(n.store) && NOBODY !in clients
    ensures Inv(r.0.store)
    decreases WaitingAt(Anyone(), n.store) + |clients|, 0
  {
    if clients == [] then (n, true)
    else if clients[0] in broken then (Gone(n.(lost := n.lost + clients[1..]), clients[0], broken), false)
    else Told(n.(pipe := n.pipe + [clients[0]]), clients[1..], broken)
  }

  /** When every connection works, everybody is told, in order, and nothing else happens. */
  lemma {:induction false} AllTold(n: Net, clients: seq<Client>, broken: set<Client>)
    requires Inv(n.store) && NOBODY !in clients && forall c :: c in clients ==> c !in broken
    ensures Told(n, clients, broken) == (n.(pipe := n.pipe + clients), true)
    decreases |clients|
  {
    if clients == [] {
      assert n.pipe + clients == n.pipe;
    } else {
      var m := n.(pipe := n.pipe + [clients[0]]);
      AllTold(m, clients[1..], broken);
      assert m.pipe + clients[1..] == n.pipe + clients;
    }
  }

  /** Then a departure hands exactly the heirs of the client back to the main thread. */
  lemma {:induction false} QuietDeparture(n: Net, c: Client, broken: set<Client>)
    requires Inv(n.store) && c != NOBODY
    requires forall d :: d in Heirs(n.store.tab, n.store.order, c) ==> d !in broken
    ensures Departed(n, c, broken) ==
      n.(store := Exec(n.store, EvictClient(c)).0, pipe := n.pipe + Reverse(Heirs(n.store.tab, n.store.order, c)))
  {
    GainedFacts(n.store, c);
    EvictClientReply(n.store, c);
    ReverseIn(Heirs(n.store.tab, n.store.order, c));
    var (store, reply) := Exec(n.store, EvictClient(c));
    AllTold(n.(store := store), Woken(reply), broken);
  }

  // ---------- the recursion is what a worker does ----------

  function Put(s: Server, n: Net, w: nat, tasks: seq<Task>, closing: bool): Server
    requires w < |s.workers|
  {
    s.(store := n.store, pipe := n.pipe, open := n.open, lost := n.lost,
      workers := s.workers[w := Worker(tasks, closing)])
  }

  /** One client of the list is told, or cannot be. */
  lemma {:induction false} TellStep(s: Server, w: nat, clients: seq<Client>, own: bool, rest: seq<Task>, sent: bool)
    requires w < |s.workers| && s.workers[w].tasks == [Notify(clients, own)] + rest && clients != [] && Shape(s.store)
    ensures CanAct(s, Tell(w, sent))
    ensures var closing := s.workers[w].closing; var n := NetOf(s);
      Act(s, Tell(w, sent)) ==
        if sent then Put(s, n.(pipe := n.pipe + [clients[0]]), w, [Notify(clients[1..], own)] + rest, closing)
        else Put(s, n.(lost := n.lost + clients[1..]), w, [Leave(clients[0])] + rest, closing || own)
  {
    assert s.workers[w].tasks[1..] == rest;
  }

  lemma {:induction false} NobodyLeft(s: Server, w: nat, own: bool, rest: seq<Task>)
    requires w < |s.workers| && s.workers[w].tasks == [Notify([], own)] + rest && Shape(s.store)
    ensures CanRun(s, [Proceed(w)])
    ensures After(s, [Proceed(w)]) == Put(s, NetOf(s), w, rest, s.workers[w].closing)
  {
    assert s.workers[w].tasks[1..] == rest && [Proceed(w)][1..] == [];
  }

  /** From a task to notify some clients, a worker that is left alone gets where the recursive
      call gets, and goes on with the rest of its tasks. */
  lemma {:induction false} TellRun(s: Server, w: nat, clients: seq<Client>, own: bool, rest: seq<Task>,
      broken: set<Client>) returns (acts: seq<Action>)
    requires w < |s.workers| && s.workers[w].tasks == [Notify(clients, own)] + rest
    requires Inv(s.store) && NOBODY !in clients
    ensures CanRun(s, acts)
    ensures var (n, ok) := Told(NetOf(s), clients, broken);
      After(s, acts) == Put(s, n, w, rest, s.workers[w].closing || (own && !ok))
    decreases WaitingAt(Anyone(), s.store) + |clients|, 0
  {
    if clients == [] {
      NobodyLeft(s, w, own, rest);
      acts := [Proceed(w)];
    } else {
      var a := Tell(w, clients[0] !in broken);
      TellStep(s, w, clients, own, rest, a.sent);
      var more;
      if a.sent {
        more := TellRun(Act(s, a), w, clients[1..], own, rest, broken);
      } else {
        more := GoneRun(Act(s, a), w, clients[0], rest, broken);
      }
      RunCons(s, a, more);
      acts := [a] + more;
    }
  }

  /** From the departure on: the message, the end of the connection, and the rest of the tasks. */
  lemma {:induction false} PartRun(s: Server, w: nat, c: Client, rest: seq<Task>) returns (acts: seq<Action>)
    requires w < |s.workers| && s.workers[w].tasks == [SayGone(c)] + rest && Shape(s.store)
    ensures CanRun(s, acts)
    ensures After(s, acts) ==
      Put(s, NetOf(s).(pipe := s.pipe + [GONE], open := s.open - {c}), w, rest, s.workers[w].closing)
  {
    assert s.workers[w].tasks[1..] == rest && ([HangUp(c)] + rest)[1..] == rest;
    var t := Act(s, Proceed(w));
    assert t == SaidGone(s, w);
    assert Act(t, Proceed(w)) == HungUp(t, w);
    RunCons(t, Proceed(w), []);
    RunCons(s, Proceed(w), [Proceed(w)] + []);
    acts := [Proceed(w)] + ([Proceed(w)] + []);
  }

  lemma {:induction false} LeaveStep(s: Server, w: nat, c: Client, rest: seq<Task>)
    requires w < |s.workers| && s.workers[w].tasks == [Leave(c)] + rest && Shape(s.store)
    ensures CanAct(s, Proceed(w))
    ensures var (store, r) := Exec(s.store, EvictClient(c));
      Act(s, Proceed(w)) == Put(s, NetOf(s).(store := store), w,
        [Notify(Woken(r), false)] + ([SayGone(c)] + rest), s.workers[w].closing)
  {
    assert s.workers[w].tasks[1..] == rest;
    var woken := Woken(Exec(s.store, EvictClient(c)).1);
    assert [Notify(woken, false), SayGone(c)] + rest == [Notify(woken, false)] + ([SayGone(c)] + rest);
  }

  lemma {:induction false} GoneRun(s: Server, w: nat, c: Client, rest: seq<Task>, broken: set<Client>)
      returns (acts: seq<Action>)
    requires w < |s.workers| && s.workers[w].tasks == [Leave(c)] + rest
    requires Inv(s.store) && c != NOBODY
    ensures CanRun(s, acts)
    ensures After(s, acts) == Put(s, Gone(NetOf(s), c, broken), w, rest, s.workers[w].closing)
    decreases WaitingAt(Anyone(), s.store), 1
  {
    GainedFacts(s.store, c);
    LeaveStep(s, w, c, rest);
    var woken := Woken(Exec(s.store, EvictClient(c)).1);
    var t := Act(s, Proceed(w));
    var tells := TellRun(t, w, woken, false, [SayGone(c)] + rest, broken);
    var u := After(t, tells);
    var parts := PartRun(u, w, c, rest);
    RunConcat(t, tells, parts);
    RunCons(s, Proceed(w), tells + parts);
    acts := [Proceed(w)] + (tells + parts);
  }

  // ---------- a whole request ----------

  lemma {:induction false} WokenAreNamed(s: Store, op: Op)
    requires Inv(s) && Named(op) && !op.EvictClient?
    ensures NOBODY !in Woken(Exec(s, op).1)
  {
    var (t, r) := Exec(s, op);
    WaitersConserved(Is(NOBODY), s, op);
    WaitsNowhere(s.order, s.tab, NOBODY);
    CountIs(Woken(r), NOBODY);
    CountIs(Joined(op, r), NOBODY);
  }

  /** What the code does with one request of client c. A client that has to wait is kept by the store.
      Otherwise the woken clients are told, and then c is handed back; or it is closed, if it could not
      be answered, or if it appended and a client woken by that could not be told. */
  function Handled(n: Net, c: Client, op: Op, unanswered: bool, broken: set<Client>): (r: Net)
    requires Inv(n.store) && op.c == c && c != NOBODY && !op.EvictClient?
  {
    ExecKeepsInv(n.store, op);
    WokenAreNamed(n.store, op);
    var (store, reply) := Exec(n.store, op);
    var m := n.(store := store);
    if op.Lock? && reply == Fail(FileIsLocked) then m
    else
      var (told, all) := Told(m, Woken(reply), broken);
      if unanswered || (op.Append? && !all) then Gone(told, c, broken)
      else told.(pipe := told.pipe + [c])
  }

  lemma {:induction false} FinishRun(s: Server, w: nat, c: Client, broken: set<Client>) returns (acts: seq<Action>)
    requires w < |s.workers| && s.workers[w].tasks == [Finish(c)] && Inv(s.store) && c != NOBODY
    ensures CanRun(s, acts)
    ensures var n := NetOf(s);
      After(s, acts) == Put(s, if s.workers[w].closing then Gone(n, c, broken)
        else n.(pipe := n.pipe + [c]), w, [], false)
  {
    var t := Act(s, Proceed(w));
    assert s.workers[w].tasks[1..] == [];
    if s.workers[w].closing {
      assert [Leave(c)] + [] == [Leave(c)];
      var more := GoneRun(t, w, c, [], broken);
      RunCons(s, Proceed(w), more);
      acts := [Proceed(w)] + more;
    } else {
      RunCons(s, Proceed(w), []);
      acts := [Proceed(w)] + [];
    }
  }

  lemma {:induction false} AnswerStep(s: Server, w: nat, c: Client, op: Op, unanswered: bool)
    requires w < |s.workers| && s.workers[w] == Worker([Serve(c)], false) && op.c == c && !op.EvictClient?
    requires Shape(s.store)
    ensures CanAct(s, Answer(w, op, unanswered))
    ensures var (store, r) := Exec(s.store, op);
      Act(s, Answer(w, op, unanswered)) ==
        if op.Lock? && r == Fail(FileIsLocked) then Put(s, NetOf(s).(store := store), w, [], false)
        else Put(s, NetOf(s).(store := store), w, [Notify(Woken(r), op.Append?)] + [Finish(c)], unanswered)
  {
    assert s.workers[w].tasks[1..] == [];
    var r := Exec(s.store, op).1;
    assert [Notify(Woken(r), op.Append?), Finish(c)] + [] == [Notify(Woken(r), op.Append?)] + [Finish(c)];
  }

  /** A worker that serves a request and is left alone does just that, and is idle again. */
  lemma {:induction false} RequestRun(s: Server, w: nat, c: Client, op: Op, unanswered: bool, broken: set<Client>)
      returns (acts: seq<Action>)
    requires w < |s.workers| && s.workers[w] == Worker([Serve(c)], false) && Inv(s.store)
    requires op.c == c && c != NOBODY && !op.EvictClient?
    ensures CanRun(s, acts)
    ensures After(s, acts) == Put(s, Handled(NetOf(s), c, op, unanswered, broken), w, [], false)
  {
    AnswerStep(s, w, c, op, unanswered);
    ExecKeepsInv(s.store, op);
    WokenAreNamed(s.store, op);
    var a := Answer(w, op, unanswered);
    var r := Exec(s.store, op).1;
    var t := Act(s, a);
    if op.Lock? && r == Fail(FileIsLocked) {
      RunCons(s, a, []);
      acts := [a] + [];
    } else {
      var tells := TellRun(t, w, Woken(r), op.Append?, [Finish(c)], broken);
      var u := After(t, tells);
      var ends := FinishRun(u, w, c, broken);
      RunConcat(t, tells, ends);
      RunCons(s, a, tells + ends);
      acts := [a] + (tells + ends);
    }
  }

  /** A client whose request cannot be read is evicted, and its connection is closed. */
  lemma {:induction false} UnreadableRun(s: Server, w: nat, c: Client, broken: set<Client>) returns (acts: seq<Action>)
    requires w < |s.workers| && s.workers[w] == Worker([Serve(c)], false) && Inv(s.store) && c != NOBODY
    ensures CanRun(s, acts)
    ensures After(s, acts) == Put(s, Gone(NetOf(s), c, broken), w, [], false)
  {
    var a := Action.Drop(w);
    assert s.workers[w].tasks[1..] == [] && [Finish(c)] + [] == [Finish(c)];
    var ends := FinishRun(Act(s, a), w, c, broken);
    RunCons(s, a, ends);
    acts := [a] + ends;
  }

  // ---------- the code ----------

  /** One turn of the loop over the clients. */
  lemma {:induction false} ToldTurn(n: Net, clients: seq<Client>, i: nat, broken: set<Client>)
    requires Inv(n.store) && NOBODY !in clients && i < |clients|
    ensures NOBODY !in clients[i..] && NOBODY !in clients[i + 1..] && clients[i] != NOBODY
    ensures Told(n, clients[i..], broken) ==
      if clients[i] in broken then (Gone(n.(lost := n.lost + clients[i + 1..]), clients[i], broken), false)
      else Told(n.(pipe := n.pipe + [clients[i]]), clients[i + 1..], broken)
  {
    assert clients[i..][1..] == clients[i + 1..];
  }

  /** One worker that is not interfered with; `broken` are the connections on which sends fail. */
  class Departing {
    const fs: FileSystem
    const broken: set<Client>
    var pipe: seq<int>
    var open: set<Client>
    ghost var lost: seq<Client>

    ghost predicate Valid()
      reads this, fs, fs.dict.Values
    {
      fs.Valid() && Inv(fs.View())
    }

    ghost function Value(): Net
      reads this, fs, fs.dict.Values
    {
      Net(fs.View(), pipe, open, lost)
    }

    constructor (fs: FileSystem, broken: set<Client>, open: set<Client>)
      ensures this.fs == fs && this.broken == broken && pipe == [] && lost == [] && this.open == open
    {
      this.fs, this.broken, pipe, lost, this.open := fs, broken, [], [], open;
    }

    /** FileSystem_evictClient. */
    method Depart(c: Client) returns (woken: seq<Client>)
      requires Valid() && c != NOBODY
      modifies fs.dict.Values
      ensures Valid() && NOBODY !in woken
      ensures var (store, reply) := Exec(old(fs.View()), Op.EvictClient(c));
        Value() == old(Value()).(store := store) && woken == Woken(reply)
      ensures WaitingAt(Anyone(), fs.View()) + |woken| <= old(WaitingAt(Anyone(), fs.View()))
    {
      GainedFacts(fs.View(), c);
      var reply := fs.EvictClient(c);
      woken := reply.clients;
    }

    /** evictClient. */
    method EvictClient(c: Client)
      requires Valid() && c != NOBODY
      modifies this, fs.dict.Values
      ensures Valid() && Value() == Departed(old(Value()), c, broken)
      decreases WaitingAt(Anyone(), fs.View()), 1
    {
      var woken := Depart(c);
      var all := TellAll(woken);
    }

    /** evictClientCallback: a client that cannot be told is evicted, and its connection closed. */
    method Tell(c: Client) returns (told: bool)
      requires Valid() && c != NOBODY
      modifies this, fs.dict.Values
      ensures Valid() && told == (c !in broken)
      ensures told ==> Value() == old(Value()).(pipe := old(pipe) + [c])
      ensures !told ==> Value() == Gone(old(Value()), c, broken)
      decreases WaitingAt(Anyone(), fs.View()), 2
    {
      told := c !in broken;
      if told {
        pipe := pipe + [c];
      } else {
        EvictClient(c);
        pipe := pipe + [GONE];
        open := open - {c};
      }
    }

    /** List_forEachWithContext with the callback: it stops at the first error. */
    method TellAll(clients: seq<Client>) returns (all: bool)
      requires Valid() && NOBODY !in clients
      modifies this, fs.dict.Values
      ensures Valid() && (Value(), all) == Told(old(Value()), clients, broken)
      decreases WaitingAt(Anyone(), fs.View()) + |clients|, 0
    {
      all := true;
      var i := 0;
      ghost var n := Value();
      ghost var goal := Told(n, clients, broken);
      assert clients[0..] == clients;
      while i < |clients| && all
        invariant i <= |clients| && Valid() && n == Value()
        invariant all ==> n.store == old(fs.View())
        invariant goal == if all then Told(n, clients[i..], broken) else (n, false)
      {
        ToldTurn(n, clients, i, broken);
        if clients[i] in broken { lost := lost + clients[i + 1..]; }
        all := Tell(clients[i]);
        i := i + 1;
        n := Value();
      }
    }
  }
}
