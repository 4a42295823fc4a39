/** Which files the store gives up, and in which order: an append evicts the shortest run of
    victims from the back of the list, and the list is ordered newest first by the policy. */
module Replacement {
  import opened StoreTypes
  import opened StoreSpec
  import opened StoreInvariant
  import opened Sequences

  // ---------- the shortest run of victims ----------

  /** The files that may go, in the order in which they would: the list from the back, without p. */
  function Candidates(order: seq<Path>, p: Path): seq<Path> {
    Reverse(Filter(NotIn([p]), order))
  }

  function Freed(tab: map<Path, FileState>, vs: seq<Path>): nat
    requires forall v :: v in vs ==> v in tab
  {
    if vs == [] then 0 else |tab[vs[0]].data| + Freed(tab, vs[1..])
  }

  /** n is the least number of candidates whose removal makes the content fit. */
  ghost predicate LeastRun(s: Store, p: Path, content: string, n: nat)
    requires forall q :: q in s.order ==> q in s.tab
  {
    var cs := Candidates(s.order, p);
    CandidatesIn(s.order, p);
    && n <= |cs|
    && s.size - Freed(s.tab, cs[..n]) + |content| < s.maxSize
    && forall k :: 0 <= k < n ==> s.size - Freed(s.tab, cs[..k]) + |content| >= s.maxSize
  }

  /** How many of the files vs must go, in their order, to free that many bytes. */
  function RunLength(tab: map<Path, FileState>, vs: seq<Path>, bytes: int): nat
    requires forall v :: v in vs ==> v in tab
  {
    if vs == [] || bytes <= 0 then 0 else 1 + RunLength(tab, vs[1..], bytes - |tab[vs[0]].data|)
  }

  /** How many files an append of this content must evict. */
  function Evictions(s: Store, p: Path, content: string): nat
    requires forall q :: q in s.order ==> q in s.tab
  {
    CandidatesIn(s.order, p);
    RunLength(s.tab, Candidates(s.order, p), s.size + |content| - s.maxSize + 1)
  }

  /** A removed file as the client gets it. */
  function Results(tab: map<Path, FileState>, vs: seq<Path>): seq<ResultFile>
    requires forall v :: v in vs ==> v in tab
  {
    if vs == [] then []
    else [ResultFile(vs[0], tab[vs[0]].data, tab[vs[0]].waiters)] + Results(tab, vs[1..])
  }

  lemma {:induction false} CandidatesIn(order: seq<Path>, p: Path)
    ensures forall q :: q in Candidates(order, p) <==> q in order && q != p
  {
    FilterIn(NotIn([p]), order);
    ReverseIn(Filter(NotIn([p]), order));
  }

  lemma {:induction false} CandidatesConcat(a: seq<Path>, b: seq<Path>, p: Path)
    ensures Candidates(a + b, p) == Candidates(b, p) + Candidates(a, p)
  {
    FilterConcat(NotIn([p]), a, b);
    ReverseConcat(Filter(NotIn([p]), a), Filter(NotIn([p]), b));
  }

  lemma {:induction false} CandidatesSnoc(a: seq<Path>, v: Path, p: Path)
    ensures Candidates(a + [v], p) == (if v == p then [] else [v]) + Candidates(a, p)
  {
    CandidatesConcat(a, [v], p);
    var f := Filter(NotIn([p]), [v]);
    assert [v][1..] == [];
    assert NotIn([p])(v) <==> v != p;
    assert Filter(NotIn([p]), [v][1..]) == [];
    assert f == if v == p then [] else [v];
    assert v != p ==> f[1..] == [];
  }

  /** The victim is the first candidate, and the other candidates stay in line. */
  lemma {:induction false} PickIsFirstCandidate(s: Store, p: Path)
    requires Shape(s) && Pick(s, Some(p)).Some?
    ensures var (v, s1) := Pick(s, Some(p)).value;
      Candidates(s.order, p) == [v] + Candidates(s1.order, p)
  {
    var n := |s.order|;
    var last := s.order[n - 1];
    assert s.order == s.order[..n - 1] + [last];
    CandidatesSnoc(s.order[..n - 1], last, p);
    if last == p {
      assert s.order[..n - 1] == s.order[..n - 2] + [s.order[n - 2]];
      CandidatesSnoc(s.order[..n - 2], s.order[n - 2], p);
      CandidatesSnoc(s.order[..n - 2], p, p);
    }
  }

  lemma {:induction false} FreedFrame(tab: map<Path, FileState>, tab2: map<Path, FileState>, vs: seq<Path>)
    requires forall v :: v in vs ==> v in tab && v in tab2 && tab[v] == tab2[v]
    ensures Freed(tab, vs) == Freed(tab2, vs)
    ensures Results(tab, vs) == Results(tab2, vs)
  {
    if vs != [] { FreedFrame(tab, tab2, vs[1..]); }
  }

  /** The store without a run of victims. */
  function DropAll(s: Store, vs: seq<Path>): (r: Store)
    requires forall v :: v in vs ==> v in s.tab
  {
    s.(order := Without(s.order, vs), tab := s.tab - (set v | v in vs),
       num := s.num - |vs|, size := s.size - Freed(s.tab, vs), runs := s.runs + |vs|)
  }

  lemma {:induction false} DropAllNone(s: Store)
    ensures DropAll(s, []) == s
  {
    var none: seq<Path> := [];
    FilterAll(NotIn(none), s.order);
    assert Without(s.order, none) == s.order;
    assert s.tab - (set v | v in none) == s.tab;
  }

  lemma {:induction false} TabCons(tab: map<Path, FileState>, v: Path, vs: seq<Path>)
    ensures (tab - {v}) - (set w | w in vs) == tab - (set w | w in [v] + vs)
  {
    assert (set w | w in [v] + vs) == {v} + (set w | w in vs);
  }

  lemma {:induction false} DropAllCons(s: Store, v: Path, s2: Store, vs: seq<Path>)
    requires NoDup(s.order) && v in s.tab && v !in vs
    requires forall w :: w in vs ==> w in s.tab
    requires s2 == s.(order := Remove1(s.order, v), tab := s.tab - {v}, num := s.num - 1,
                      size := s.size - |s.tab[v].data|, runs := s.runs + 1)
    ensures forall w :: w in [v] + vs ==> w in s.tab
    ensures DropAll(s2, vs) == DropAll(s, [v] + vs)
    ensures Freed(s.tab, [v] + vs) == |s.tab[v].data| + Freed(s2.tab, vs)
  {
    assert ([v] + vs)[1..] == vs;
    FreedFrame(s.tab, s2.tab, vs);
    WithoutRemove1(s.order, v, vs);
    TabCons(s.tab, v, vs);
  }

  lemma {:induction false} LeastRunCons(s: Store, p: Path, content: string, v: Path, s2: Store, n: nat)
    requires Inv(s) && Inv(s2) && p in s2.tab && v in s.tab && NeedsRoom(s, content) && content != ""
    requires s2.tab == s.tab - {v} && s2.size == s.size - |s.tab[v].data| && s2.maxSize == s.maxSize
    requires Candidates(s.order, p) == [v] + Candidates(s2.order, p)
    requires LeastRun(s2, p, content, n)
    ensures LeastRun(s, p, content, n + 1)
  {
    CandidatesIn(s.order, p);
    CandidatesIn(s2.order, p);
    var cs := Candidates(s.order, p);
    var cs2 := Candidates(s2.order, p);
    forall k | 0 < k <= |cs| ensures Freed(s.tab, cs[..k]) == |s.tab[v].data| + Freed(s2.tab, cs2[..k - 1]) {
      assert cs[..k] == [v] + cs2[..k - 1];
      assert cs[..k][1..] == cs2[..k - 1];
      FreedFrame(s.tab, s2.tab, cs2[..k - 1]);
    }
  }

  lemma {:induction false} RunLengthFrame(tab: map<Path, FileState>, tab2: map<Path, FileState>, vs: seq<Path>,
      bytes: int)
    requires forall v :: v in vs ==> v in tab && v in tab2 && tab[v] == tab2[v]
    ensures RunLength(tab, vs, bytes) == RunLength(tab2, vs, bytes)
  {
    if vs != [] && bytes > 0 { RunLengthFrame(tab, tab2, vs[1..], bytes - |tab[vs[0]].data|); }
  }

  lemma {:induction false} EvictionsTurn(s: Store, p: Path, content: string, v: Path, s2: Store)
    requires Shape(s) && Shape(s2) && NeedsRoom(s, content) && v in s.tab && v !in s2.order
    requires s2.tab == s.tab - {v} && s2.size == s.size - |s.tab[v].data| && s2.maxSize == s.maxSize
    requires Candidates(s.order, p) == [v] + Candidates(s2.order, p)
    ensures Evictions(s, p, content) == 1 + Evictions(s2, p, content)
  {
    CandidatesIn(s2.order, p);
    var cs2 := Candidates(s2.order, p);
    assert ([v] + cs2)[1..] == cs2;
    RunLengthFrame(s.tab, s2.tab, cs2, s2.size + |content| - s2.maxSize + 1);
  }

  /** One turn of the eviction loop: it takes the first candidate v and goes on with s2. */
  lemma {:induction false} AppendLoopTurn(s: Store, p: Path, content: string, acc: seq<ResultFile>)
      returns (v: Path, s2: Store)
    requires Inv(s) && p in s.tab && content != ""
    requires |s.tab[p].data| + |content| < s.maxSize
    requires NeedsRoom(s, content)
    ensures v in s.tab && v != p && Inv(s2) && p in s2.tab && |s2.order| == |s.order| - 1
    ensures s2 == s.(order := Remove1(s.order, v), tab := s.tab - {v}, num := s.num - 1,
                     size := s.size - |s.tab[v].data|, runs := s.runs + 1)
    ensures Candidates(s.order, p) == [v] + Candidates(s2.order, p)
    ensures Evictions(s, p, content) == 1 + Evictions(s2, p, content)
    ensures AppendLoop(s, p, content, acc) ==
      AppendLoop(s2, p, content, [ResultFile(v, s.tab[v].data, s.tab[v].waiters)] + acc)
  {
    PickSucceeds(s, p, content);
    PickRemoves(s, Some(p));
    PickIsFirstCandidate(s, p);
    EvictKeeps(s, Some(p));
    v := Pick(s, Some(p)).value.0;
    s2 := Drop(Pick(s, Some(p)).value.1, v).0;
    EvictionsTurn(s, p, content, v, s2);
  }

  lemma {:induction false} EvictionsLeast(s: Store, p: Path, content: string)
    requires Inv(s) && p in s.tab && content != ""
    requires |s.tab[p].data| + |content| < s.maxSize
    ensures LeastRun(s, p, content, Evictions(s, p, content))
    decreases |s.order|
  {
    if NeedsRoom(s, content) {
      var v, s2 := AppendLoopTurn(s, p, content, []);
      EvictionsLeast(s2, p, content);
      LeastRunCons(s, p, content, v, s2, Evictions(s2, p, content));
    } else {
      CandidatesIn(s.order, p);
      assert Candidates(s.order, p)[..0] == [];
    }
  }

  /** The loop with n evictions left takes n candidates at once, then writes. */
  ghost predicate Takes(s: Store, p: Path, content: string, acc: seq<ResultFile>, n: nat)
    requires Shape(s) && p in s.tab && p in s.order
  {
    CandidatesIn(s.order, p);
    (&& n <= |Candidates(s.order, p)|
     && var vs := Candidates(s.order, p)[..n];
     var d := DropAll(s, vs);
     DropAllShape(s, vs, p);
     AppendLoop(s, p, content, acc) == (AppendCommit(d, p, content), Files(Reverse(Results(s.tab, vs)) + acc))) == true
  }

  lemma {:induction false} TakesIf(s: Store, p: Path, content: string, acc: seq<ResultFile>, n: nat, vs: seq<Path>,
      t: Store, r: Reply)
    requires Shape(s) && p in s.tab && p in s.order && n <= |Candidates(s.order, p)|
      && vs == Candidates(s.order, p)[..n]
    requires forall v :: v in vs ==> v in s.tab && v != p
    requires AppendLoop(s, p, content, acc) == (t, r)
    requires Shape(DropAll(s, vs)) && p in DropAll(s, vs).tab && p in DropAll(s, vs).order
    requires t == AppendCommit(DropAll(s, vs), p, content) && r == Files(Reverse(Results(s.tab, vs)) + acc)
    ensures Takes(s, p, content, acc, n)
  {
  }

  lemma {:induction false} FirstCandidates(order: seq<Path>, p: Path, n: nat, tab: map<Path, FileState>)
    requires n <= |Candidates(order, p)| && forall q :: q in order ==> q in tab
    ensures forall v :: v in Candidates(order, p)[..n] ==> v in tab && v != p && v in order
  {
    CandidatesIn(order, p);
    forall v | v in Candidates(order, p)[..n] ensures v in Candidates(order, p) {}
  }

  lemma {:induction false} DropAllShape(s: Store, vs: seq<Path>, p: Path)
    requires Shape(s) && p in s.tab && p in s.order && p !in vs
    requires forall v :: v in vs ==> v in s.tab
    ensures Shape(DropAll(s, vs)) && p in DropAll(s, vs).tab && p in DropAll(s, vs).order
  {
    FilterIn(NotIn(vs), s.order);
    FilterNoDup(NotIn(vs), s.order);
  }

  lemma {:induction false} TakesCons(s: Store, p: Path, content: string, acc: seq<ResultFile>, v: Path, s2: Store,
      n: nat)
    requires Shape(s) && p in s.tab && p in s.order && v in s.tab
    requires Shape(s2) && p in s2.tab && p in s2.order
    requires s2 == s.(order := Remove1(s.order, v), tab := s.tab - {v}, num := s.num - 1,
                      size := s.size - |s.tab[v].data|, runs := s.runs + 1)
    requires Candidates(s.order, p) == [v] + Candidates(s2.order, p)
    requires AppendLoop(s, p, content, acc) ==
      AppendLoop(s2, p, content, [ResultFile(v, s.tab[v].data, s.tab[v].waiters)] + acc)
    requires Takes(s2, p, content, [ResultFile(v, s.tab[v].data, s.tab[v].waiters)] + acc, n)
    ensures Takes(s, p, content, acc, n + 1)
  {
    var rf := ResultFile(v, s.tab[v].data, s.tab[v].waiters);
    var vs2 := Candidates(s2.order, p)[..n];
    FirstCandidates(s2.order, p, n, s2.tab);
    assert Candidates(s.order, p)[..n + 1] == [v] + vs2;
    FirstCandidates(s.order, p, n + 1, s.tab);
    DropAllCons(s, v, s2, vs2);
    ResultsLater(s, v, s2, vs2, acc);
    DropAllShape(s2, vs2, p);
    TakesIf(s, p, content, acc, n + 1, [v] + vs2, AppendCommit(DropAll(s2, vs2), p, content),
            Files(Reverse(Results(s2.tab, vs2)) + ([rf] + acc)));
  }

  lemma {:induction false} ResultsLater(s: Store, v: Path, s2: Store, vs: seq<Path>, acc: seq<ResultFile>)
    requires v in s.tab && s2.tab == s.tab - {v} && forall w :: w in vs ==> w in s2.tab
    ensures forall w :: w in [v] + vs ==> w in s.tab
    ensures var rf := ResultFile(v, s.tab[v].data, s.tab[v].waiters);
      Reverse(Results(s2.tab, vs)) + ([rf] + acc) == Reverse(Results(s.tab, [v] + vs)) + acc
  {
    FreedFrame(s.tab, s2.tab, vs);
    ResultsCons(s.tab, v, vs, ResultFile(v, s.tab[v].data, s.tab[v].waiters), acc);
  }

  lemma {:induction false} TakesNone(s: Store, p: Path, content: string, acc: seq<ResultFile>)
    requires Shape(s) && p in s.tab && p in s.order && !NeedsRoom(s, content)
    ensures Takes(s, p, content, acc, 0)
  {
    assert Candidates(s.order, p)[..0] == [];
    DropAllNone(s);
    assert Reverse(Results(s.tab, [])) + acc == acc;
  }

  lemma {:induction false} AppendLoopTakes(s: Store, p: Path, content: string, acc: seq<ResultFile>)
    requires Inv(s) && p in s.tab && content != ""
    requires |s.tab[p].data| + |content| < s.maxSize
    ensures Takes(s, p, content, acc, Evictions(s, p, content))
    decreases |s.order|
  {
    if NeedsRoom(s, content) {
      var v, s2 := AppendLoopTurn(s, p, content, acc);
      AppendLoopTakes(s2, p, content, [ResultFile(v, s.tab[v].data, s.tab[v].waiters)] + acc);
      TakesCons(s, p, content, acc, v, s2, Evictions(s2, p, content));
    } else {
      TakesNone(s, p, content, acc);
    }
  }

  lemma {:induction false} ResultsCons(tab: map<Path, FileState>, v: Path, vs: seq<Path>, rf: ResultFile,
      acc: seq<ResultFile>)
    requires v in tab && forall w :: w in vs ==> w in tab
    requires rf == ResultFile(v, tab[v].data, tab[v].waiters)
    ensures forall w :: w in [v] + vs ==> w in tab
    ensures Reverse(Results(tab, [v] + vs)) + acc == Reverse(Results(tab, vs)) + ([rf] + acc)
  {
    assert ([v] + vs)[1..] == vs;
    var rs := Results(tab, vs);
    assert ([rf] + rs)[1..] == rs;
  }

  /** An append that passes its checks always succeeds; it evicts the shortest run of candidates
      that makes room, hands those files back last evicted first, never touches another file,
      conserves bytes, and leaves the others in their order in the list. */
  lemma {:induction false} AppendEvictsLeast(s: Store, p: Path, content: string, c: Client, write: bool)
    requires Inv(s) && p in s.tab && content != ""
    requires AppendCheck(s, s.tab[p], content, c, write).None?
    ensures LeastRun(s, p, content, Evictions(s, p, content))
    ensures var n := Evictions(s, p, content);
      var vs := Candidates(s.order, p)[..n];
      var (t, r) := Exec(s, Append(p, content, c, write));
      && (forall v :: v in vs ==> v in s.tab && v != p)
      && r == Files(Reverse(Results(s.tab, vs)))
      && t.tab == (s.tab - (set v | v in vs))[p := s.tab[p].(data := s.tab[p].data + content, canWrite := NOBODY)]
      && s.size + |content| == t.size + Freed(s.tab, vs)
      && t.runs == s.runs + n && t.num == s.num - n
      && t.order == (if s.policy == Lru then MoveToFront(Without(s.order, vs), p) else Without(s.order, vs))
  {
    AppendIsLoop(s, p, content, c, write);
    EvictionsLeast(s, p, content);
    AppendLoopTakes(s, p, content, []);
    TakesFields(s, p, content, Evictions(s, p, content));
  }

  lemma {:induction false} AppendIsLoop(s: Store, p: Path, content: string, c: Client, write: bool)
    requires Inv(s) && p in s.tab && content != ""
    requires AppendCheck(s, s.tab[p], content, c, write).None?
    ensures |s.tab[p].data| + |content| < s.maxSize && p in s.order
    ensures Exec(s, Append(p, content, c, write)) == AppendLoop(s, p, content, [])
  {
  }

  lemma {:induction false} TakesFields(s: Store, p: Path, content: string, n: nat)
    requires Shape(s) && p in s.tab && p in s.order && Takes(s, p, content, [], n)
    ensures n <= |Candidates(s.order, p)|
    ensures var vs := Candidates(s.order, p)[..n];
      var (t, r) := AppendLoop(s, p, content, []);
      && (forall v :: v in vs ==> v in s.tab && v != p)
      && r == Files(Reverse(Results(s.tab, vs)))
      && t.tab == (s.tab - (set v | v in vs))[p := s.tab[p].(data := s.tab[p].data + content, canWrite := NOBODY)]
      && s.size + |content| == t.size + Freed(s.tab, vs)
      && t.runs == s.runs + n && t.num == s.num - n
      && t.order == (if s.policy == Lru then MoveToFront(Without(s.order, vs), p) else Without(s.order, vs))
  {
    CandidatesIn(s.order, p);
    var vs := Candidates(s.order, p)[..n];
    DropAllShape(s, vs, p);
    var rs := Reverse(Results(s.tab, vs));
    assert rs + [] == rs;
  }

  /** An append that fails a check leaves the store as it was. */
  lemma {:induction false} FailedAppendChangesNothing(s: Store, p: Path, content: string, c: Client, write: bool)
    requires Inv(s)
    ensures var (t, r) := Exec(s, Append(p, content, c, write));
      (r.Fail? <==> !r.Files?) && (r.Fail? ==> t == s && r.error != FailedEvict)
  {
    if |content| != 0 && |content| < s.maxSize && p in s.tab && AppendCheck(s, s.tab[p], content, c, write).None? {
      AppendEvictsLeast(s, p, content, c, write);
    }
  }

  // ---------- the order of the list ----------

  /** The paths an operation makes newest, oldest first: under FIFO a created file, under LRU also
      every file that was found, read or appended to. */
  function Renewed(s: Store, op: Op, reply: Reply): seq<Path> {
    match op
    case Open(p, flags, _) =>
      if p !in s.tab then (if reply.Opened? then [p] else [])
      else if s.policy == Lru && ValidFlags(flags) && !HasCreate(flags) then [p] else []
    case Append(p, _, _, _) => if s.policy == Lru && reply.Files? then [p] else []
    case ReadN(_, _) => if s.policy == Lru && reply.Files?
      then seq(|reply.files|, i requires 0 <= i < |reply.files| => reply.files[i].path) else []
    case Remove(_, _) => []
    case EvictClient(_) => []
    case _ => if s.policy == Lru && op.path in s.tab then [op.path] else []
  }

  /** Gives the paths the stamps now, now + 1, ... */
  function StampAll(stamp: map<Path, nat>, now: nat, ps: seq<Path>): map<Path, nat>
    decreases |ps|
  {
    if ps == [] then stamp else StampAll(stamp[ps[0] := now], now + 1, ps[1..])
  }

  /** The list is strictly newest first, and its first file was stamped before `now`. */
  ghost predicate NewestFirst(order: seq<Path>, stamp: map<Path, nat>, now: nat) {
    order == [] || (order[0] in stamp && stamp[order[0]] < now && NewestFirst(order[1..], stamp, stamp[order[0]]))
  }

  /** The stamps after one operation. */
  function Tick(s: Store, op: Op, stamp: map<Path, nat>, now: nat): (map<Path, nat>, nat)
    requires Shape(s)
  {
    var ps := Renewed(s, op, Exec(s, op).1);
    (StampAll(stamp, now, ps), now + |ps|)
  }

  /** The ghost clock after a sequence of operations. */
  ghost function Clock(s: Store, ops: seq<Op>): (map<Path, nat>, nat)
    requires Shape(s)
    decreases |ops|
  {
    if ops == [] then (map[], 0)
    else
      var n := |ops| - 1;
      Tick(Run(s, ops[..n]), ops[n], Clock(s, ops[..n]).0, Clock(s, ops[..n]).1)
  }

  lemma {:induction false} Remove1Newest(order: seq<Path>, p: Path, stamp: map<Path, nat>, now: nat)
    requires NewestFirst(order, stamp, now)
    ensures NewestFirst(Remove1(order, p), stamp, now)
  {
    if order != [] {
      if order[0] == p {
        LaterNewest(order[1..], stamp, stamp[p], now);
      } else {
        Remove1Newest(order[1..], p, stamp, stamp[order[0]]);
        var r := Remove1(order[1..], p);
        assert ([order[0]] + r)[1..] == r;
      }
    }
  }

  lemma {:induction false} LaterNewest(order: seq<Path>, stamp: map<Path, nat>, now: nat, later: nat)
    requires NewestFirst(order, stamp, now) && now <= later
    ensures NewestFirst(order, stamp, later)
  {
  }

  lemma {:induction false} RestampNewest(r: seq<Path>, p: Path, stamp: map<Path, nat>, now: nat, k: nat)
    requires NewestFirst(r, stamp, k) && p !in r
    ensures NewestFirst(r, stamp[p := now], k)
  {
    if r != [] { RestampNewest(r[1..], p, stamp, now, stamp[r[0]]); }
  }

  lemma {:induction false} ConsNewest(p: Path, r: seq<Path>, stamp: map<Path, nat>, now: nat)
    requires NewestFirst(r, stamp, now) && p !in r
    ensures NewestFirst([p] + r, stamp[p := now], now + 1)
  {
    RestampNewest(r, p, stamp, now, now);
    assert ([p] + r)[1..] == r;
  }

  lemma {:induction false} RenewNewest(order: seq<Path>, p: Path, stamp: map<Path, nat>, now: nat)
    requires NewestFirst(order, stamp, now) && NoDup(order)
    ensures NewestFirst(MoveToFront(order, p), stamp[p := now], now + 1)
  {
    Remove1Newest(order, p, stamp, now);
    NoDupRemove1(order, p);
    ConsNewest(p, Remove1(order, p), stamp, now);
  }

  lemma {:induction false} MoveAllNewest(order: seq<Path>, read: seq<ResultFile>, stamp: map<Path, nat>, now: nat)
    requires NewestFirst(order, stamp, now) && NoDup(order)
    requires forall rf :: rf in read ==> rf.path in order
    ensures NewestFirst(MoveAll(order, read),
      StampAll(stamp, now, seq(|read|, i requires 0 <= i < |read| => read[i].path)), now + |read|)
    decreases |read|
  {
    if read != [] {
      var p := read[0].path;
      RenewNewest(order, p, stamp, now);
      NoDupRemove1(order, p);
      MoveAllNewest(MoveToFront(order, p), read[1..], stamp[p := now], now + 1);
      var ps := seq(|read|, i requires 0 <= i < |read| => read[i].path);
      var ps1 := seq(|read[1..]|, i requires 0 <= i < |read[1..]| => read[1..][i].path);
      assert ps[1..] == ps1;
    }
  }

  lemma {:induction false} PickNewest(s: Store, protect: Option<Path>, stamp: map<Path, nat>, now: nat)
    requires Shape(s) && NewestFirst(s.order, stamp, now) && Pick(s, protect).Some?
    ensures NewestFirst(Pick(s, protect).value.1.order, stamp, now)
  {
    PickRemoves(s, protect);
    Remove1Newest(s.order, Pick(s, protect).value.0, stamp, now);
  }

  lemma {:induction false} TouchNewest(s: Store, p: Path, stamp: map<Path, nat>, now: nat)
    requires Shape(s) && p in s.tab && p in s.order && NewestFirst(s.order, stamp, now)
    ensures s.policy == Lru ==> NewestFirst(Touch(s, p).order, stamp[p := now], now + 1)
  {
    RenewNewest(s.order, p, stamp, now);
  }

  lemma {:induction false} AppendLoopNewest(s: Store, p: Path, content: string, acc: seq<ResultFile>,
      stamp: map<Path, nat>, now: nat)
    requires Shape(s) && p in s.tab && p in s.order && NewestFirst(s.order, stamp, now)
    ensures var (t, r) := AppendLoop(s, p, content, acc);
      r.Files? ==> if s.policy == Lru then NewestFirst(t.order, stamp[p := now], now + 1)
        else NewestFirst(t.order, stamp, now)
    decreases |s.order|
  {
    if NeedsRoom(s, content) {
      if Pick(s, Some(p)).Some? {
        PickNewest(s, Some(p), stamp, now);
        var (v, s1) := Pick(s, Some(p)).value;
        var (s2, rf) := Drop(s1, v);
        AppendLoopNewest(s2, p, content, [rf] + acc, stamp, now);
      }
    } else {
      RenewNewest(s.order, p, stamp, now);
    }
  }

  lemma {:induction false} OpenNewNewest(s: Store, p: Path, c: Client, lock: bool, e: Option<ResultFile>,
      stamp: map<Path, nat>, now: nat)
    requires Shape(s) && p !in s.tab && NewestFirst(s.order, stamp, now)
    ensures NewestFirst(OpenNew(s, p, c, lock, e).0.order, stamp[p := now], now + 1)
    ensures OpenNew(s, p, c, lock, e).1.Opened?
  {
    assert OpenNew(s, p, c, lock, e).0.order == [p] + s.order;
    ConsNewest(p, s.order, stamp, now);
  }

  lemma {:induction false} StampOne(stamp: map<Path, nat>, now: nat, p: Path)
    ensures StampAll(stamp, now, [p]) == stamp[p := now]
  {
    assert [p][1..] == [];
  }

  ghost predicate Renews(s: Store, op: Op, stamp: map<Path, nat>, now: nat)
    requires Shape(s)
  {
    NewestFirst(Exec(s, op).0.order, Tick(s, op, stamp, now).0, Tick(s, op, stamp, now).1) == true
  }

  lemma {:induction false} OpenRenews(s: Store, p: Path, flags: int, c: Client, stamp: map<Path, nat>, now: nat)
    requires Inv(s) && NewestFirst(s.order, stamp, now)
    ensures Renews(s, Open(p, flags, c), stamp, now)
  {
    if p in s.tab {
      if s.policy == Lru && ValidFlags(flags) && !HasCreate(flags) {
        StampOne(stamp, now, p);
        TouchNewest(s, p, stamp, now);
      }
    } else if ValidFlags(flags) && HasCreate(flags) {
      CreateRenews(s, p, flags, c, stamp, now);
    }
  }

  lemma {:induction false} CreateRenews(s: Store, p: Path, flags: int, c: Client, stamp: map<Path, nat>, now: nat)
    requires Inv(s) && NewestFirst(s.order, stamp, now)
    requires p !in s.tab && ValidFlags(flags) && HasCreate(flags)
    ensures Renews(s, Open(p, flags, c), stamp, now)
  {
    StampOne(stamp, now, p);
    var (t, r) := Exec(s, Open(p, flags, c));
    assert r.Opened? && NewestFirst(t.order, stamp[p := now], now + 1) by {
      if s.num == s.maxFiles {
        PickNewest(s, None, stamp, now);
        var (v, s1) := Pick(s, None).value;
        OpenNewNewest(Drop(s1, v).0, p, c, HasLock(flags), Some(Drop(s1, v).1), stamp, now);
      } else {
        OpenNewNewest(s, p, c, HasLock(flags), None, stamp, now);
      }
    }
  }

  lemma {:induction false} ReadNRenews(s: Store, n: int, c: Client, stamp: map<Path, nat>, now: nat)
    requires Inv(s) && NewestFirst(s.order, stamp, now)
    ensures Renews(s, ReadN(n, c), stamp, now)
  {
    var read := ReadRest(s.tab, s.order, ReadLimit(n, |s.order|), c, []);
    ReadRestPaths(s.tab, s.order, ReadLimit(n, |s.order|), c, []);
    MoveAllNewest(s.order, read, stamp, now);
  }

  lemma {:induction false} AppendSucceeds(s: Store, p: Path, content: string, c: Client, write: bool)
    requires Inv(s) && Exec(s, Append(p, content, c, write)).1.Files?
    ensures p in s.tab && p in s.order && content != "" && AppendCheck(s, s.tab[p], content, c, write).None?
    ensures Exec(s, Append(p, content, c, write)) == AppendLoop(s, p, content, [])
  {
  }

  lemma {:induction false} AppendRenews(s: Store, p: Path, content: string, c: Client, write: bool,
      stamp: map<Path, nat>, now: nat)
    requires Inv(s) && NewestFirst(s.order, stamp, now)
    ensures Renews(s, Append(p, content, c, write), stamp, now)
  {
    FailedAppendChangesNothing(s, p, content, c, write);
    if Exec(s, Append(p, content, c, write)).1.Files? {
      AppendSucceeds(s, p, content, c, write);
      StampOne(stamp, now, p);
      AppendLoopNewest(s, p, content, [], stamp, now);
    }
  }

  lemma {:induction false} EnterRenews(s: Store, p: Path, e: Effect, stamp: map<Path, nat>, now: nat)
    requires Inv(s) && NewestFirst(s.order, stamp, now)
    ensures var t := Enter(s, p, e).0;
      if s.policy == Lru && p in s.tab then NewestFirst(t.order, stamp[p := now], now + 1)
      else NewestFirst(t.order, stamp, now)
  {
    if p in s.tab { TouchNewest(s, p, stamp, now); }
  }

  /** Every operation keeps the list newest first, with the stamps of the files it renewed. */
  lemma {:induction false} ExecNewest(s: Store, op: Op, stamp: map<Path, nat>, now: nat)
    requires Inv(s) && NewestFirst(s.order, stamp, now)
    ensures Renews(s, op, stamp, now)
  {
    match op
    case Open(p, flags, c) => OpenRenews(s, p, flags, c, stamp, now);
    case Read(p, c) => StampOne(stamp, now, p); EnterRenews(s, p, ReadIt(c), stamp, now);
    case ReadN(n, c) => ReadNRenews(s, n, c, stamp, now);
    case Append(p, content, c, write) => AppendRenews(s, p, content, c, write, stamp, now);
    case Lock(p, c) => StampOne(stamp, now, p); EnterRenews(s, p, LockIt(c), stamp, now);
    case Unlock(p, c) => StampOne(stamp, now, p); EnterRenews(s, p, UnlockIt(c), stamp, now);
    case Close(p, c) => StampOne(stamp, now, p); EnterRenews(s, p, CloseIt(c), stamp, now);
    case Remove(p, c) => Remove1Newest(s.order, p, stamp, now);
    case EvictClient(_) =>
  }

  ghost predicate NewestAfter(s: Store, ops: seq<Op>)
    requires Shape(s)
  {
    NewestFirst(Run(s, ops).order, Clock(s, ops).0, Clock(s, ops).1) == true
  }

  lemma {:induction false} OneMoreNewest(s: Store, ops: seq<Op>)
    requires Shape(s) && ops != []
      && Renews(Run(s, ops[..|ops| - 1]), ops[|ops| - 1], Clock(s, ops[..|ops| - 1]).0, Clock(s, ops[..|ops| - 1]).1)
    ensures NewestAfter(s, ops)
  {
  }

  /** In every reachable state the list is strictly newest first: by creation under FIFO, by last
      use under LRU. */
  lemma {:induction false} RunNewest(maxSize: nat, maxFiles: nat, policy: Policy, ops: seq<Op>)
    requires 0 < maxSize && 0 < maxFiles && AllNamed(ops)
    ensures var s := Empty(maxSize, maxFiles, policy); NewestAfter(s, ops)
    decreases |ops|
  {
    var s := Empty(maxSize, maxFiles, policy);
    if ops != [] {
      var n := |ops| - 1;
      assert forall op :: op in ops[..n] ==> op in ops;
      RunNewest(maxSize, maxFiles, policy, ops[..n]);
      ReachableInv(maxSize, maxFiles, policy, ops[..n]);
      ExecNewest(Run(s, ops[..n]), ops[n], Clock(s, ops[..n]).0, Clock(s, ops[..n]).1);
      OneMoreNewest(s, ops);
    }
  }

  lemma {:induction false} NewestAt(order: seq<Path>, stamp: map<Path, nat>, now: nat, i: nat, j: nat)
    requires NewestFirst(order, stamp, now) && i < j < |order|
    ensures order[i] in stamp && order[j] in stamp && stamp[order[i]] > stamp[order[j]]
  {
    if i > 0 {
      NewestAt(order[1..], stamp, stamp[order[0]], i - 1, j - 1);
    } else if j == 1 {
      assert order[1] == order[1..][0];
    } else {
      NewestAt(order[1..], stamp, stamp[order[0]], 0, j - 1);
      assert order[1] == order[1..][0] && order[j] == order[1..][j - 1];
    }
  }

  /** So every victim is older than every other file, except for the protected one. */
  lemma {:induction false} VictimIsOldest(s: Store, protect: Option<Path>, stamp: map<Path, nat>, now: nat, q: Path)
    requires Shape(s) && NewestFirst(s.order, stamp, now) && Pick(s, protect).Some?
    requires q in s.order && q != Pick(s, protect).value.0 && Some(q) != protect
    ensures var v := Pick(s, protect).value.0; v in stamp && q in stamp && stamp[v] < stamp[q]
  {
    var k :| 0 <= k < |s.order| && s.order[k] == q;
    var n := |s.order|;
    var v := if protect == Some(s.order[n - 1]) then n - 2 else n - 1;
    NewestAt(s.order, stamp, now, k, v);
  }

  // ---------- the victims of a run ----------

  lemma {:induction false} FilterNewest(keep: Path -> bool, order: seq<Path>, stamp: map<Path, nat>, now: nat)
    requires NewestFirst(order, stamp, now)
    ensures NewestFirst(Filter(keep, order), stamp, now)
  {
    if order != [] {
      FilterNewest(keep, order[1..], stamp, stamp[order[0]]);
      var r := Filter(keep, order[1..]);
      assert ([order[0]] + r)[1..] == r;
      LaterNewest(r, stamp, stamp[order[0]], now);
    }
  }

  /** The candidates are in line from the oldest to the newest. */
  lemma {:induction false} CandidatesAge(order: seq<Path>, p: Path, stamp: map<Path, nat>, now: nat, i: nat, j: nat)
    requires NewestFirst(order, stamp, now) && i < j < |Candidates(order, p)|
    ensures var cs := Candidates(order, p);
      cs[i] in stamp && cs[j] in stamp && stamp[cs[i]] < stamp[cs[j]]
  {
    var xs := Filter(NotIn([p]), order);
    FilterNewest(NotIn([p]), order, stamp, now);
    ReverseAt(xs, i);
    ReverseAt(xs, j);
    NewestAt(xs, stamp, now, |xs| - 1 - j, |xs| - 1 - i);
  }

  lemma {:induction false} ResultsIn(tab: map<Path, FileState>, vs: seq<Path>, rf: ResultFile)
    requires (forall v :: v in vs ==> v in tab) && rf in Results(tab, vs)
    ensures rf.path in vs && rf == ResultFile(rf.path, tab[rf.path].data, tab[rf.path].waiters)
  {
    if rf != ResultFile(vs[0], tab[vs[0]].data, tab[vs[0]].waiters) { ResultsIn(tab, vs[1..], rf); }
  }

  /** The files that an open or an append evicted. */
  function EvictedFiles(op: Op, r: Reply): seq<ResultFile> {
    if op.Open? && r.Opened? && r.evicted.Some? then [r.evicted.value]
    else if op.Append? && r.Files? then r.files
    else []
  }

  predicate Older(stamp: map<Path, nat>, v: Path, q: Path) {
    v in stamp && q in stamp && stamp[v] < stamp[q]
  }

  lemma {:induction false} AppendVictimsOldest(s: Store, op: Op, stamp: map<Path, nat>, now: nat, rf: ResultFile,
      q: Path)
    requires Inv(s) && NewestFirst(s.order, stamp, now) && op.Append? && rf in EvictedFiles(op, Exec(s, op).1)
    requires q in s.tab && q in Exec(s, op).0.tab && q != op.path
    ensures Older(stamp, rf.path, q)
  {
    AppendSucceeds(s, op.path, op.content, op.c, op.write);
    AppendEvictsLeast(s, op.path, op.content, op.c, op.write);
    var n := Evictions(s, op.path, op.content);
    var cs := Candidates(s.order, op.path);
    var vs := cs[..n];
    ReverseIn(Results(s.tab, vs));
    ResultsIn(s.tab, vs, rf);
    CandidatesIn(s.order, op.path);
    var i :| 0 <= i < n && vs[i] == rf.path;
    var j := Beyond(cs, n, q);
    CandidatesAge(s.order, op.path, stamp, now, i, j);
  }

  lemma {:induction false} Beyond(cs: seq<Path>, n: nat, q: Path) returns (j: nat)
    requires n <= |cs| && q in cs && q !in cs[..n]
    ensures n <= j < |cs| && cs[j] == q
  {
    assert cs == cs[..n] + cs[n..];
    assert q in cs[n..];
    var k :| 0 <= k < |cs[n..]| && cs[n..][k] == q;
    j := n + k;
  }

  lemma {:induction false} OpenEvicts(s: Store, p: Path, flags: int, c: Client, rf: ResultFile)
    requires Inv(s) && ExecOpen(s, p, flags, c).1 == Opened(Some(rf))
    ensures Pick(s, None).Some? && rf.path == Pick(s, None).value.0
    ensures rf.path in s.tab && rf == ResultFile(rf.path, s.tab[rf.path].data, s.tab[rf.path].waiters)
    ensures rf.path !in ExecOpen(s, p, flags, c).0.tab
  {
    assert p !in s.tab;
    var (v, s1) := Pick(s, None).value;
    var (s2, r) := Drop(s1, v);
    assert ExecOpen(s, p, flags, c) == OpenNew(s2, p, c, HasLock(flags), Some(r));
    assert OpenNew(s2, p, c, HasLock(flags), Some(r)).1 == Opened(Some(r));
    assert v in s.tab;
  }

  lemma {:induction false} OpenVictimOldest(s: Store, op: Op, stamp: map<Path, nat>, now: nat, rf: ResultFile, q: Path)
    requires Inv(s) && NewestFirst(s.order, stamp, now) && op.Open? && rf in EvictedFiles(op, Exec(s, op).1)
    requires q in s.tab && q in Exec(s, op).0.tab && q != op.path
    ensures Older(stamp, rf.path, q)
  {
    OpenEvicts(s, op.path, op.flags, op.c, rf);
    VictimIsOldest(s, None, stamp, now, q);
  }

  /** In every run, whatever an open or an append evicts is older than every file that stays,
      except the file that is appended to: created longer ago under FIFO, unused for longer under LRU. */
  lemma {:induction false} VictimsAreOldest(maxSize: nat, maxFiles: nat, policy: Policy, ops: seq<Op>, op: Op,
      rf: ResultFile, q: Path)
    requires 0 < maxSize && 0 < maxFiles && AllNamed(ops)
    requires var s := Run(Empty(maxSize, maxFiles, policy), ops);
      && rf in EvictedFiles(op, Exec(s, op).1)
      && q in s.tab && q in Exec(s, op).0.tab && q != op.path
    ensures Older(Clock(Empty(maxSize, maxFiles, policy), ops).0, rf.path, q)
  {
    var start := Empty(maxSize, maxFiles, policy);
    ReachableInv(maxSize, maxFiles, policy, ops);
    RunNewest(maxSize, maxFiles, policy, ops);
    var (stamp, now) := Clock(start, ops);
    if op.Append? {
      AppendVictimsOldest(Run(start, ops), op, stamp, now, rf, q);
    } else {
      OpenVictimOldest(Run(start, ops), op, stamp, now, rf, q);
    }
  }
}
