/** A run of the server, from its start, in which a connected client is forgotten: 9 creates and
    locks a file, 10 and 11 ask for the lock and wait, 9 removes the file, and 10 cannot be told. */
module LostClient {
  import opened StoreTypes
  import opened StoreSpec
  import opened Waiting
  import opened Server
  import opened Descriptors
  import opened SmallStore

  ghost predicate Reaches(s: Server, t: Server) {
    exists acts :: CanRun(s, acts) && After(s, acts) == t
  }

  lemma {:induction false} OneStep(s: Server, a: Action)
    requires CanAct(s, a)
    ensures Reaches(s, Act(s, a))
  {
    RunCons(s, a, []);
    assert CanRun(s, [a] + []);
  }

  lemma {:induction false} Onwards(s: Server, t: Server, u: Server)
    requires Reaches(s, t) && Reaches(t, u)
    ensures Reaches(s, u)
  {
    var xs :| CanRun(s, xs) && After(s, xs) == t;
    var ys :| CanRun(t, ys) && After(t, ys) == u;
    RunConcat(s, xs, ys);
  }

  // ---------- a round of the main thread for one descriptor ----------

  lemma {:induction false} SkipTo(s: Server, end: int)
    requires Shape(s.store) && s.cursor <= end <= s.fdNum + 1
    requires forall x :: x in s.ready ==> x < s.cursor || end <= x
    ensures Reaches(s, s.(cursor := end))
    decreases end - s.cursor
  {
    if s.cursor == end {
      assert CanRun(s, []) && After(s, []) == s.(cursor := end);
    } else {
      var t := s.(cursor := s.cursor + 1);
      OneStep(s, Visit(0));
      SkipTo(t, end);
      Onwards(s, t, s.(cursor := end));
    }
  }

  predicate CanBeReady(s: Server, fd: int, accepted: Client) {
    && s.cursor > s.fdNum && 0 <= fd <= s.fdNum && s.listener != s.messages
    && (fd in s.watched || fd == s.listener || fd == s.messages)
    && (fd == s.listener ==> FreshDescriptor(s, accepted))
    && (fd == s.messages <==> s.pipe != [])
  }

  /** select reports one descriptor, and the scan runs to its end. */
  function Round(s: Server, fd: int, accepted: Client): Server
    requires CanBeReady(s, fd, accepted)
  {
    var t := VisitNext(s.(ready := {fd}, cursor := fd), accepted);
    t.(cursor := Max(fd, t.fdNum) + 1)
  }

  lemma {:induction false} RoundRuns(s: Server, fd: int, accepted: Client)
    requires Shape(s.store) && CanBeReady(s, fd, accepted)
    ensures Reaches(s, Round(s, fd, accepted))
  {
    var s0 := Act(s, Select({fd}));
    OneStep(s, Select({fd}));
    var s1 := s0.(cursor := fd);
    SkipTo(s0, fd);
    var t := VisitNext(s1, accepted);
    OneStep(s1, Visit(accepted));
    Onwards(s, s0, s1);
    Onwards(s, s1, t);
    var end := Round(s, fd, accepted);
    if fd < t.fdNum {
      SkipTo(t, t.fdNum + 1);
      Onwards(s, t, end);
    } else {
      assert t == end;
    }
  }

  // ---------- a request served by the only worker ----------

  const IDLE := Worker([], false)

  predicate CanAsk(s: Server, c: Client) {
    && s.workers == [IDLE] && s.queue == [] && c in s.watched
    && CanBeReady(s, c, c) && c != s.listener && c != s.messages
  }

  function Asked(s: Server, c: Client): Server
    requires CanAsk(s, c)
  {
    Round(s, c, c).(queue := [], workers := [Worker([Serve(c)], false)])
  }

  lemma {:induction false} AskRuns(s: Server, c: Client)
    requires Shape(s.store) && CanAsk(s, c)
    ensures Reaches(s, Asked(s, c))
  {
    RoundRuns(s, c, c);
    var t := Round(s, c, c);
    assert t.queue == [c] && t.queue[1..] == [];
    assert Act(t, Dequeue(0)) == Asked(s, c);
    OneStep(t, Dequeue(0));
    Onwards(s, t, Asked(s, c));
  }

  function Served(s: Server, c: Client, op: Op): Server
    requires Shape(s.store) && CanAsk(s, c)
  {
    var (store, r) := Exec(s.store, op);
    var tasks := if Joined(op, r) != [] then [] else [Notify(Woken(r), op.Append?), Finish(c)];
    Round(s, c, c).(store := store, queue := [], workers := [Worker(tasks, false)])
  }

  lemma {:induction false} RequestRuns(s: Server, c: Client, op: Op)
    requires Shape(s.store) && CanAsk(s, c) && op.c == c && !op.EvictClient?
    ensures Reaches(s, Served(s, c, op))
  {
    AskRuns(s, c);
    var t := Asked(s, c);
    OneStep(t, Answer(0, op, false));
    var r := Exec(s.store, op).1;
    assert [Serve(c)][1..] == [];
    var tasks := [Notify(Woken(r), op.Append?), Finish(c)];
    assert tasks + [] == tasks;
    assert AnswerNext(t, 0, op, false) == Served(s, c, op);
    Onwards(s, t, Served(s, c, op));
  }

  /** Nobody is to be told: the descriptor goes through the pipe back into the set. */
  lemma {:induction false} HandBackRuns(s: Server, c: Client)
    requires Shape(s.store) && s.workers == [Worker([Notify([], false), Finish(c)], false)]
    requires s.pipe == [] && CanBeReady(s.(pipe := [c]), s.messages, c)
    ensures Reaches(s, Round(s.(workers := [IDLE], pipe := [c]), s.messages, c))
  {
    assert s.workers[0].tasks[1..] == [Finish(c)] && [Finish(c)][1..] == [];
    var t := s.(workers := [Worker([Finish(c)], false)]);
    assert Act(s, Proceed(0)) == t;
    OneStep(s, Proceed(0));
    var u := s.(workers := [IDLE], pipe := [c]);
    assert Act(t, Proceed(0)) == u;
    OneStep(t, Proceed(0));
    Onwards(s, t, u);
    RoundRuns(u, s.messages, c);
    Onwards(s, u, Round(u, s.messages, c));
  }

  // ---------- the run ----------

  const START := Server(8, 5, {3, 5, 8}, NEW_STORE, {}, {}, 8, {}, 9, 0, [], [], [IDLE], [])

  const CONNECTED := START.(open := {9, 10, 11}, watched := {9, 10, 11}, fdNum := 11, ready := {8}, cursor := 12,
      connected := 3)

  lemma {:induction false} ThreeConnect()
    ensures Reaches(START, CONNECTED)
  {
    var s1, s2 := Round(START, 8, 9), Round(Round(START, 8, 9), 8, 10);
    RoundRuns(START, 8, 9);
    RoundRuns(s1, 8, 10);
    Onwards(START, s1, s2);
    RoundRuns(s2, 8, 11);
    assert Round(s2, 8, 11) == CONNECTED;
    Onwards(START, s2, CONNECTED);
  }

  lemma {:induction false} LockWaits(canWrite: Client, waiters: seq<Client>, c: Client)
    requires c != 9 && c !in waiters
    ensures Shape(StoreWith(canWrite, waiters))
    ensures Exec(StoreWith(canWrite, waiters), Op.Lock("f", c)) ==
      (StoreWith(NOBODY, waiters + [c]), Fail(FileIsLocked))
  {
    StoreWithShape(canWrite, waiters);
    var f := StoreWith(canWrite, waiters).tab["f"];
    assert ApplyLock(c, f) == (FileState("", 9, NOBODY, waiters + [c], [9]), Fail(FileIsLocked));
    assert StoreWith(canWrite, waiters).tab["f" := FileState("", 9, NOBODY, waiters + [c], [9])] ==
      StoreWith(NOBODY, waiters + [c]).tab;
  }

  lemma {:induction false} RemoveWakes(waiters: seq<Client>)
    ensures Shape(StoreWith(NOBODY, waiters))
    ensures Exec(StoreWith(NOBODY, waiters), Op.Remove("f", 9)) == (NEW_STORE.(maxNum := 1), Removed(waiters))
  {
    StoreWithShape(NOBODY, waiters);
    assert StoreWith(NOBODY, waiters).tab - {"f"} == map[];
  }

  const FILE_OPEN := CONNECTED.(store := StoreWith(9, []), ready := {5})

  lemma {:induction false} NineOpens()
    ensures Reaches(CONNECTED, FILE_OPEN)
  {
    OpenCreates();
    var op := Op.Open("f", O_CREATE + O_LOCK, 9);
    RequestRuns(CONNECTED, 9, op);
    var t := Served(CONNECTED, 9, op);
    assert t.workers == [Worker([Notify([], false), Finish(9)], false)];
    StoreWithShape(9, []);
    HandBackRuns(t, 9);
    assert Round(t.(workers := [IDLE], pipe := [9]), 5, 9) == FILE_OPEN;
    Onwards(CONNECTED, t, FILE_OPEN);
  }

  const ONE_WAITS := FILE_OPEN.(store := StoreWith(NOBODY, [10]), watched := {9, 11}, ready := {10})

  const TWO_WAIT := ONE_WAITS.(store := StoreWith(NOBODY, [10, 11]), watched := {9}, ready := {11}, fdNum := 10)

  lemma {:induction false} TwoWait()
    ensures Reaches(FILE_OPEN, TWO_WAIT)
  {
    LockWaits(9, [], 10);
    assert [] + [10] == [10];
    RequestRuns(FILE_OPEN, 10, Op.Lock("f", 10));
    assert Served(FILE_OPEN, 10, Op.Lock("f", 10)) == ONE_WAITS;
    LockWaits(NOBODY, [10], 11);
    assert [10] + [11] == [10, 11];
    RequestRuns(ONE_WAITS, 11, Op.Lock("f", 11));
    assert Served(ONE_WAITS, 11, Op.Lock("f", 11)) == TWO_WAIT;
    Onwards(FILE_OPEN, ONE_WAITS, TWO_WAIT);
  }

  const REMOVED :=
    TWO_WAIT.(store := NEW_STORE.(maxNum := 1), watched := {}, ready := {9}, cursor := 11,
              workers := [Worker([Notify([10, 11], false), Finish(9)], false)])

  const FORGOTTEN := REMOVED.(workers := [Worker([Leave(10), Finish(9)], false)], lost := [11])

  lemma {:induction false} NineRemoves()
    ensures Reaches(TWO_WAIT, FORGOTTEN)
  {
    RemoveWakes([10, 11]);
    RequestRuns(TWO_WAIT, 9, Op.Remove("f", 9));
    assert Served(TWO_WAIT, 9, Op.Remove("f", 9)) == REMOVED;
    assert [10, 11][1..] == [11] && REMOVED.workers[0].tasks[1..] == [Finish(9)];
    assert [Leave(10)] + [Finish(9)] == [Leave(10), Finish(9)] && [] + [11] == [11];
    assert Act(REMOVED, Tell(0, false)) == FORGOTTEN;
    OneStep(REMOVED, Tell(0, false));
    Onwards(TWO_WAIT, REMOVED, FORGOTTEN);
  }

  lemma {:induction false} Forgets()
    ensures Reaches(START, FORGOTTEN)
  {
    ThreeConnect();
    NineOpens();
    TwoWait();
    NineRemoves();
    Onwards(START, CONNECTED, FILE_OPEN);
    Onwards(START, FILE_OPEN, TWO_WAIT);
    Onwards(START, TWO_WAIT, FORGOTTEN);
  }

  lemma {:induction false} StartIsInitial()
    ensures Initial(START)
  {
  }

  lemma {:induction false} NowhereInOnePlace(s: Server, c: Client)
    requires ServerInv(s) && c in s.lost
    ensures c in s.open && !InOnePlace(s, c)
  {
    CountIs(s.lost, c);
    PlacesOf(s, c);
  }

  /** The server gets into a state in which the open connection 11 is in no place at all: it is
      not watched, queued, served, announced or waiting, so no step concerns it any more. */
  lemma {:induction false} AClientIsLost() returns (acts: seq<Action>)
    ensures Initial(START) && CanRun(START, acts) && AbandonsSomewhere(START, acts)
    ensures Shape(After(START, acts).store)
    ensures 11 in After(START, acts).open && !InOnePlace(After(START, acts), 11)
  {
    Forgets();
    StartIsInitial();
    acts :| CanRun(START, acts) && After(START, acts) == FORGOTTEN;
    InitialIsSound(START);
    RunKeeps(START, acts);
    LostWhere(START, acts);
    NowhereInOnePlace(After(START, acts), 11);
  }
}
