/** What a whole run says about the store: where every byte came from, how often a first write can
    succeed, where every file went, and which files a bulk read returns. */
module History {
  import opened StoreTypes
  import opened StoreSpec
  import opened StoreInvariant
  import opened Sequences
  import opened Locks

  // ---------- data ----------

  predicate Creates(op: Op, reply: Reply, p: Path) {
    op.Open? && op.path == p && HasCreate(op.flags) && reply.Opened?
  }

  predicate Appends(op: Op, reply: Reply, p: Path) {
    op.Append? && op.path == p && reply.Files?
  }

  /** What was appended to p since it was last created, read off the requests and the answers. */
  ghost function Written(s: Store, ops: seq<Op>, p: Path): string
    requires Shape(s)
    decreases |ops|
  {
    if ops == [] then ""
    else
      var n := |ops| - 1;
      var (op, reply) := (ops[n], ReplyAt(s, ops, n));
      if Creates(op, reply, p) then ""
      else if Appends(op, reply, p) then Written(s, ops[..n], p) + op.content
      else Written(s, ops[..n], p)
  }

  lemma {:induction false} AppendData(s: Store, p: Path, content: string, c: Client, write: bool)
    requires Inv(s) && c != NOBODY && p in s.tab && p in Exec(s, Append(p, content, c, write)).0.tab
    ensures var (t, r) := Exec(s, Append(p, content, c, write));
      t.tab[p].data == if r.Files? then s.tab[p].data + content else s.tab[p].data
  {
    ExecOneFile(s, Append(p, content, c, write), p);
    AppendAnswers(s, p, content, c, write);
  }

  lemma {:induction false} NotCreated(s: Store, op: Op, p: Path)
    requires Shape(s) && p in s.tab
    ensures !Creates(op, Exec(s, op).1, p)
  {
  }

  lemma {:induction false} FileAfterData(op: Op, r: Reply, f: FileState)
    requires !op.Append?
    ensures FileAfter(op, r, f).data == f.data
  {
  }

  lemma {:induction false} OldData(s: Store, op: Op, p: Path)
    requires Inv(s) && Named(op) && p in s.tab && p in Exec(s, op).0.tab
    ensures var (t, r) := Exec(s, op);
      !Creates(op, r, p) && t.tab[p].data == if Appends(op, r, p) then s.tab[p].data + op.content else s.tab[p].data
  {
    NotCreated(s, op, p);
    if op.Append? && op.path == p {
      AppendData(s, p, op.content, op.c, op.write);
    } else {
      ExecOneFile(s, op, p);
      if !op.Append? { FileAfterData(op, Exec(s, op).1, s.tab[p]); }
    }
  }

  /** One operation: a created file is empty, an append adds its content, nothing else touches data. */
  lemma {:induction false} ExecData(s: Store, op: Op, p: Path)
    requires Inv(s) && Named(op) && p in Exec(s, op).0.tab
    ensures var (t, r) := Exec(s, op);
      && (p !in s.tab <==> Creates(op, r, p))
      && (Creates(op, r, p) ==> t.tab[p].data == "")
      && (Appends(op, r, p) ==> t.tab[p].data == s.tab[p].data + op.content)
      && (!Creates(op, r, p) && !Appends(op, r, p) ==> t.tab[p].data == s.tab[p].data)
  {
    if p in s.tab { OldData(s, op, p); } else { NewPathIsCreated(s, op, p); }
  }

  lemma {:induction false} NewPathIsCreated(s: Store, op: Op, p: Path)
    requires Inv(s) && Named(op) && p !in s.tab && p in Exec(s, op).0.tab
    ensures Creates(op, Exec(s, op).1, p) && Exec(s, op).0.tab[p].data == ""
  {
    if op.Append? && op.content != "" && op.path in s.tab {
      AppendLoopForgets(s, op.path, op.content, [], p);
    }
  }

  /** The data of a file is always the concatenation of what was appended since its creation. */
  lemma {:induction false} DataIsWhatWasAppended(maxSize: nat, maxFiles: nat, policy: Policy, ops: seq<Op>, p: Path)
    requires 0 < maxSize && 0 < maxFiles && AllNamed(ops)
    ensures var s := Empty(maxSize, maxFiles, policy);
      p in Run(s, ops).tab ==> Run(s, ops).tab[p].data == Written(s, ops, p)
    decreases |ops|
  {
    var s := Empty(maxSize, maxFiles, policy);
    if ops != [] && p in Run(s, ops).tab {
      var n := |ops| - 1;
      DataIsWhatWasAppended(maxSize, maxFiles, policy, ops[..n], p);
      assert forall op :: op in ops[..n] ==> op in ops;
      RunKeepsInv(s, ops[..n]);
      ExecData(Run(s, ops[..n]), ops[n], p);
    }
  }

  // ---------- the one-shot write ----------

  /** A write only succeeds for the client that holds the lock, on an empty file. */
  lemma {:induction false} WriteNeedsLock(s: Store, p: Path, content: string, c: Client)
    requires Inv(s) && c != NOBODY && Exec(s, Append(p, content, c, true)).1.Files?
    ensures p in s.tab && s.tab[p].data == "" && s.tab[p].lockedBy == c && content != ""
    ensures p in Exec(s, Append(p, content, c, true)).0.tab
  {
    if p in s.tab && AppendCheck(s, s.tab[p], content, c, true).None? {
      assert FileInv(s.tab[p]);
      AppendKeepsTarget(s, p, content, []);
    }
  }

  lemma {:induction false} AppendKeepsTarget(s: Store, p: Path, content: string, acc: seq<ResultFile>)
    requires Shape(s) && p in s.tab && p in s.order
    ensures p in AppendLoop(s, p, content, acc).0.tab
    decreases |s.order|
  {
    if NeedsRoom(s, content) && Pick(s, Some(p)).Some? {
      var (v, s1) := Pick(s, Some(p)).value;
      var (s2, rf) := Drop(s1, v);
      AppendKeepsTarget(s2, p, content, [rf] + acc);
    }
  }

  /** A successful write is the first content of the file, and it uses the permission up. */
  lemma {:induction false} WriteIsFirst(s: Store, p: Path, content: string, c: Client)
    requires Inv(s) && c != NOBODY && Exec(s, Append(p, content, c, true)).1.Files?
    ensures var t := Exec(s, Append(p, content, c, true)).0;
      && p in s.tab && s.tab[p].data == "" && s.tab[p].lockedBy == c && content != ""
      && p in t.tab && t.tab[p].data == content && t.tab[p].canWrite == NOBODY
  {
    WriteNeedsLock(s, p, content, c);
    ExecOneFile(s, Append(p, content, c, true), p);
  }

  ghost predicate WritesAt(s: Store, ops: seq<Op>, p: Path, i: nat)
    requires Shape(s) && i < |ops|
  {
    Appends(ops[i], ReplyAt(s, ops, i), p) && ops[i].write
  }

  ghost predicate CreatesAt(s: Store, ops: seq<Op>, p: Path, i: nat)
    requires Shape(s) && i < |ops|
  {
    Creates(ops[i], ReplyAt(s, ops, i), p)
  }

  predicate Filled(s: Store, p: Path) {
    p in s.tab ==> s.tab[p].data != ""
  }

  lemma {:induction false} FilledStep(s: Store, op: Op, p: Path)
    requires Inv(s) && Named(op) && !Creates(op, Exec(s, op).1, p) && Filled(s, p)
    ensures Filled(Exec(s, op).0, p)
  {
    if p in Exec(s, op).0.tab { ExecData(s, op, p); }
  }

  lemma {:induction false} RunNext(s: Store, ops: seq<Op>, i: nat)
    requires Shape(s) && i < |ops|
    ensures Run(s, ops[..i + 1]) == Exec(Run(s, ops[..i]), ops[i]).0
  {
    assert ops[..i + 1][..i] == ops[..i];
  }

  lemma {:induction false} RunInv(s: Store, ops: seq<Op>, i: nat)
    requires Inv(s) && AllNamed(ops) && i <= |ops|
    ensures Inv(Run(s, ops[..i]))
  {
    assert forall op :: op in ops[..i] ==> op in ops;
    RunKeepsInv(s, ops[..i]);
  }

  /** Until p is created again, a p with content keeps its content or is gone. */
  lemma {:induction false} FilledStays(s: Store, ops: seq<Op>, p: Path, i: nat, j: nat)
    requires Inv(s) && AllNamed(ops) && i <= j <= |ops|
    requires Filled(Run(s, ops[..i]), p)
    requires forall k :: i <= k < j ==> !CreatesAt(s, ops, p, k)
    ensures Filled(Run(s, ops[..j]), p)
    decreases j
  {
    if i < j {
      FilledStays(s, ops, p, i, j - 1);
      RunInv(s, ops, j - 1);
      RunNext(s, ops, j - 1);
      assert ops[j - 1] in ops && !CreatesAt(s, ops, p, j - 1);
      FilledStep(Run(s, ops[..j - 1]), ops[j - 1], p);
    }
  }

  /** Between two successful writes to the same path the file was created anew: a file is written
      at most once in its life. */
  lemma {:induction false} WriteOncePerLife(s: Store, ops: seq<Op>, p: Path, i: nat, j: nat)
    requires Inv(s) && AllNamed(ops) && i < j < |ops|
    requires WritesAt(s, ops, p, i) && WritesAt(s, ops, p, j)
    ensures exists k :: i < k < j && CreatesAt(s, ops, p, k)
  {
    assert ops[i] in ops && ops[j] in ops;
    RunInv(s, ops, i);
    RunInv(s, ops, j);
    WriteIsFirst(Run(s, ops[..i]), p, ops[i].content, ops[i].c);
    WriteNeedsLock(Run(s, ops[..j]), p, ops[j].content, ops[j].c);
    RunNext(s, ops, i);
    if forall k :: i + 1 <= k < j ==> !CreatesAt(s, ops, p, k) {
      FilledStays(s, ops, p, i + 1, j);
    }
  }

  // ---------- files ----------

  function Change(op: Op, reply: Reply): (int, int) {
    if op.Open? && HasCreate(op.flags) && reply.Opened? then (1, 0)
    else if op.Remove? && reply.Removed? then (0, 1)
    else (0, 0)
  }

  /** How many files were created and how many were removed on request. */
  ghost function CreatedRemoved(s: Store, ops: seq<Op>): (int, int)
    requires Shape(s)
    decreases |ops|
  {
    if ops == [] then (0, 0)
    else
      var n := |ops| - 1;
      var (a, b) := CreatedRemoved(s, ops[..n]);
      var (x, y) := Change(ops[n], ReplyAt(s, ops, n));
      (a + x, b + y)
  }

  lemma {:induction false} AppendLoopCounts(s: Store, p: Path, content: string, acc: seq<ResultFile>)
    requires Shape(s) && p in s.tab && p in s.order
    ensures AppendLoop(s, p, content, acc).0.num + AppendLoop(s, p, content, acc).0.runs == s.num + s.runs
    decreases |s.order|
  {
    if NeedsRoom(s, content) && Pick(s, Some(p)).Some? {
      var (v, s1) := Pick(s, Some(p)).value;
      var (s2, rf) := Drop(s1, v);
      AppendLoopCounts(s2, p, content, [rf] + acc);
    }
  }

  ghost predicate Counts(s: Store, op: Op)
    requires Shape(s)
  {
    var (t, r) := Exec(s, op);
    t.num + t.runs + Change(op, r).1 == s.num + s.runs + Change(op, r).0
  }

  lemma {:induction false} OpenCounts(s: Store, p: Path, flags: int, c: Client)
    requires Inv(s)
    ensures Counts(s, Open(p, flags, c))
  {
  }

  lemma {:induction false} AppendKeepsCount(s: Store, p: Path, content: string, c: Client, write: bool)
    requires Shape(s)
    ensures var t := ExecAppend(s, p, content, c, write).0; t.num + t.runs == s.num + s.runs
  {
    if p in s.tab && p in s.order { AppendLoopCounts(s, p, content, []); }
  }

  lemma {:induction false} AppendCounts(s: Store, p: Path, content: string, c: Client, write: bool)
    requires Inv(s)
    ensures Counts(s, Append(p, content, c, write))
  {
    AppendKeepsCount(s, p, content, c, write);
  }

  lemma {:induction false} ExecCounts(s: Store, op: Op)
    requires Inv(s) && Named(op)
    ensures Counts(s, op)
  {
    match op
    case Open(p, flags, c) => OpenCounts(s, p, flags, c);
    case Append(p, content, c, write) => AppendCounts(s, p, content, c, write);
    case _ =>
  }

  /** Every file ever created is in the store, was removed, or was evicted by one run of the
      replacement algorithm. */
  lemma {:induction false} FilesAreAccountedFor(maxSize: nat, maxFiles: nat, policy: Policy, ops: seq<Op>)
    requires 0 < maxSize && 0 < maxFiles && AllNamed(ops)
    ensures var s := Empty(maxSize, maxFiles, policy);
      var t := Run(s, ops);
      CreatedRemoved(s, ops).0 == |t.order| + CreatedRemoved(s, ops).1 + t.runs
    decreases |ops|
  {
    var s := Empty(maxSize, maxFiles, policy);
    RunKeepsInv(s, ops);
    if ops != [] {
      var n := |ops| - 1;
      assert forall op :: op in ops[..n] ==> op in ops;
      FilesAreAccountedFor(maxSize, maxFiles, policy, ops[..n]);
      RunKeepsInv(s, ops[..n]);
      ExecCounts(Run(s, ops[..n]), ops[n]);
    }
  }

  // ---------- the bulk read ----------

  function ReadableBy(tab: map<Path, FileState>, c: Client): Path -> bool {
    p => p in tab && !LockedByOther(tab[p], c)
  }

  function Copies(tab: map<Path, FileState>, ps: seq<Path>): seq<ResultFile>
    requires forall p :: p in ps ==> p in tab
  {
    if ps == [] then [] else [ResultFile(ps[0], tab[ps[0]].data, [])] + Copies(tab, ps[1..])
  }

  /** The first `count` files of the list that c may read. */
  function FirstReadable(tab: map<Path, FileState>, order: seq<Path>, count: int, c: Client): (ps: seq<Path>)
    ensures forall p :: p in ps ==> p in tab && p in order
  {
    var all := Filter(ReadableBy(tab, c), order);
    FilterIn(ReadableBy(tab, c), order);
    assert forall p :: p in Take(all, count) ==> p in all;
    Take(all, count)
  }

  lemma {:induction false} FirstIsLocked(tab: map<Path, FileState>, rest: seq<Path>, counter: int, c: Client)
    requires rest != [] && counter > 0 && rest[0] in tab && LockedByOther(tab[rest[0]], c)
    ensures FirstReadable(tab, rest, counter, c) == FirstReadable(tab, rest[1..], counter, c)
  {
    var more := Filter(ReadableBy(tab, c), rest[1..]);
    assert [] + more == more;
  }

  lemma {:induction false} FirstIsRead(tab: map<Path, FileState>, rest: seq<Path>, counter: int, c: Client)
    requires rest != [] && counter > 0 && rest[0] in tab && !LockedByOther(tab[rest[0]], c)
    ensures FirstReadable(tab, rest, counter, c) == [rest[0]] + FirstReadable(tab, rest[1..], counter - 1, c)
  {
    var more := Filter(ReadableBy(tab, c), rest[1..]);
    assert Take([rest[0]] + more, counter) == [rest[0]] + Take(more, counter - 1);
  }

  lemma {:induction false} CopiesCons(tab: map<Path, FileState>, p: Path, ps: seq<Path>, acc: seq<ResultFile>)
    requires p in tab && forall q :: q in ps ==> q in tab
    ensures Reverse(Copies(tab, [p] + ps)) + acc == Reverse(Copies(tab, ps)) + ([ResultFile(p, tab[p].data, [])] + acc)
  {
    var rf := ResultFile(p, tab[p].data, []);
    assert ([p] + ps)[1..] == ps;
    assert ([rf] + Copies(tab, ps))[1..] == Copies(tab, ps);
  }

  ghost predicate ReadsFirst(tab: map<Path, FileState>, rest: seq<Path>, counter: int, c: Client, acc: seq<ResultFile>)
    requires forall p :: p in rest ==> p in tab
  {
    (ReadRest(tab, rest, counter, c, acc) == Reverse(Copies(tab, FirstReadable(tab, rest, counter, c))) + acc) == true
  }

  lemma {:induction false} ReadsNone(tab: map<Path, FileState>, rest: seq<Path>, counter: int, c: Client,
      acc: seq<ResultFile>)
    requires (forall p :: p in rest ==> p in tab) && (rest == [] || counter <= 0)
    ensures ReadsFirst(tab, rest, counter, c, acc)
  {
    assert Reverse(Copies(tab, [])) + acc == acc;
  }

  lemma {:induction false} SkipsLocked(tab: map<Path, FileState>, rest: seq<Path>, counter: int, c: Client,
      acc: seq<ResultFile>)
    requires (forall p :: p in rest ==> p in tab) && rest != [] && counter > 0 && LockedByOther(tab[rest[0]], c)
    requires ReadsFirst(tab, rest[1..], counter, c, acc)
    ensures ReadsFirst(tab, rest, counter, c, acc)
  {
    FirstIsLocked(tab, rest, counter, c);
  }

  lemma {:induction false} ReadsOne(tab: map<Path, FileState>, rest: seq<Path>, counter: int, c: Client,
      acc: seq<ResultFile>)
    requires (forall p :: p in rest ==> p in tab) && rest != [] && counter > 0 && !LockedByOther(tab[rest[0]], c)
    requires ReadsFirst(tab, rest[1..], counter - 1, c, [ResultFile(rest[0], tab[rest[0]].data, [])] + acc)
    ensures ReadsFirst(tab, rest, counter, c, acc)
  {
    FirstIsRead(tab, rest, counter, c);
    CopiesCons(tab, rest[0], FirstReadable(tab, rest[1..], counter - 1, c), acc);
  }

  lemma {:induction false} ReadRestIs(tab: map<Path, FileState>, rest: seq<Path>, counter: int, c: Client,
      acc: seq<ResultFile>)
    requires forall p :: p in rest ==> p in tab
    ensures ReadsFirst(tab, rest, counter, c, acc)
    decreases rest
  {
    if rest == [] || counter <= 0 {
      ReadsNone(tab, rest, counter, c, acc);
    } else if LockedByOther(tab[rest[0]], c) {
      ReadRestIs(tab, rest[1..], counter, c, acc);
      SkipsLocked(tab, rest, counter, c, acc);
    } else {
      ReadRestIs(tab, rest[1..], counter - 1, c, [ResultFile(rest[0], tab[rest[0]].data, [])] + acc);
      ReadsOne(tab, rest, counter, c, acc);
    }
  }

  function Paths(read: seq<ResultFile>): seq<Path> {
    if read == [] then [] else [read[0].path] + Paths(read[1..])
  }

  /** One more file in front of those that were moved before. */
  lemma {:induction false} MoveOneMore(order: seq<Path>, p: Path, ps: seq<Path>)
    requires NoDup(order) && p !in ps
    ensures Reverse(ps) + Without(MoveToFront(order, p), ps) == Reverse([p] + ps) + Without(order, [p] + ps)
  {
    var r := Remove1(order, p);
    assert ([p] + r)[1..] == r && ([p] + ps)[1..] == ps;
    WithoutRemove1(order, p, ps);
    assert Without([p] + r, ps) == [p] + Without(r, ps);
  }

  lemma {:induction false} MoveAllIs(order: seq<Path>, read: seq<ResultFile>)
    requires NoDup(order) && NoDup(Paths(read))
    ensures MoveAll(order, read) == Reverse(Paths(read)) + Without(order, Paths(read))
    decreases |read|
  {
    if read == [] {
      var none: seq<Path> := [];
      FilterAll(NotIn(none), order);
    } else {
      var p := read[0].path;
      var ps := Paths(read[1..]);
      assert Paths(read)[1..] == ps;
      NoDupRemove1(order, p);
      NoDupCons(p, Remove1(order, p));
      MoveAllIs(MoveToFront(order, p), read[1..]);
      MoveOneMore(order, p, ps);
    }
  }

  lemma {:induction false} CopiesPaths(tab: map<Path, FileState>, ps: seq<Path>)
    requires forall p :: p in ps ==> p in tab
    ensures Paths(Reverse(Copies(tab, ps))) == Reverse(ps)
  {
    if ps != [] {
      CopiesPaths(tab, ps[1..]);
      PathsSnoc(Reverse(Copies(tab, ps[1..])), ResultFile(ps[0], tab[ps[0]].data, []));
    }
  }

  lemma {:induction false} PathsSnoc(read: seq<ResultFile>, rf: ResultFile)
    ensures Paths(read + [rf]) == Paths(read) + [rf.path]
  {
    if read == [] {
      assert read + [rf] == [rf];
    } else {
      assert (read + [rf])[1..] == read[1..] + [rf];
      PathsSnoc(read[1..], rf);
    }
  }

  lemma {:induction false} WithoutSame(xs: seq<Path>, ys: seq<Path>, zs: seq<Path>)
    requires forall y :: y in ys <==> y in zs
    ensures Without(xs, ys) == Without(xs, zs)
  {
    FilterSame(NotIn(ys), NotIn(zs), xs);
  }

  lemma {:induction false} LimitReadsTheFirst(s: Store, n: int, c: Client)
    ensures FirstReadable(s.tab, s.order, ReadLimit(n, |s.order|), c) ==
            FirstReadable(s.tab, s.order, if n <= 0 then |s.order| else n, c)
  {
    FilterShorter(ReadableBy(s.tab, c), s.order);
  }

  lemma {:induction false} FirstNoDup(s: Store, count: int, c: Client)
    requires Shape(s)
    ensures NoDup(FirstReadable(s.tab, s.order, count, c))
  {
    var all := Filter(ReadableBy(s.tab, c), s.order);
    FilterNoDup(ReadableBy(s.tab, c), s.order);
    if 0 < count < |all| { NoDupPrefix(all, count); }
  }

  /** moveFilesLRU over what a bulk read returns. */
  lemma {:induction false} MoveCopies(order: seq<Path>, tab: map<Path, FileState>, ps: seq<Path>)
    requires NoDup(order) && NoDup(ps) && forall p :: p in ps ==> p in tab
    ensures MoveAll(order, Reverse(Copies(tab, ps))) == ps + Without(order, ps)
  {
    var read := Reverse(Copies(tab, ps));
    CopiesPaths(tab, ps);
    ReverseNoDup(ps);
    MoveAllIs(order, read);
    ReverseTwice(ps);
    WithoutSame(order, Reverse(ps), ps);
  }

  /** A bulk read returns the first min(n, readable) files of the list that no other client has
      locked (all of them when n <= 0), last one first; under LRU those files come first
      afterwards, and both they and the others keep their order. */
  lemma {:induction false} ReadNReadsTheFirst(s: Store, n: int, c: Client)
    requires Inv(s)
    ensures var (t, r) := Exec(s, ReadN(n, c));
      var ps := FirstReadable(s.tab, s.order, if n <= 0 then |s.order| else n, c);
      && r == Files(Reverse(Copies(s.tab, ps)))
      && t == s.(order := t.order)
      && t.order == if s.policy == Lru then ps + Without(s.order, ps) else s.order
  {
    var ps := FirstReadable(s.tab, s.order, ReadLimit(n, |s.order|), c);
    LimitReadsTheFirst(s, n, c);
    ReadRestIs(s.tab, s.order, ReadLimit(n, |s.order|), c, []);
    var read := Reverse(Copies(s.tab, ps));
    assert read + [] == read;
    FirstNoDup(s, ReadLimit(n, |s.order|), c);
    MoveCopies(s.order, s.tab, ps);
  }

  // ---------- the high-water marks ----------

  /** The largest value of m over all moments of a run. */
  ghost function Highest(m: Store -> int, s: Store, ops: seq<Op>): int
    requires Shape(s)
    decreases |ops|
  {
    if ops == [] then m(s) else Max(Highest(m, s, ops[..|ops| - 1]), m(Run(s, ops)))
  }

  function Bytes(): Store -> int { (s: Store) => s.size }

  function FileCount(): Store -> int { (s: Store) => s.num }

  /** After an operation that began in s. */
  predicate Marked(s: Store, t: Store) {
    t.maxBytes == Max(s.maxBytes, t.size) && t.maxNum == Max(s.maxNum, t.num)
  }

  lemma {:induction false} LoopMarks(s: Store, p: Path, content: string, acc: seq<ResultFile>)
    requires Inv(s) && p in s.tab && content != "" && |s.tab[p].data| + |content| < s.maxSize
    ensures Marked(s, AppendLoop(s, p, content, acc).0)
    decreases |s.order|
  {
    if NeedsRoom(s, content) {
      PickSucceeds(s, p, content);
      EvictKeeps(s, Some(p));
      var (v, s1) := Pick(s, Some(p)).value;
      LoopMarks(Drop(s1, v).0, p, content, [Drop(s1, v).1] + acc);
    }
  }

  lemma {:induction false} AppendMarks(s: Store, p: Path, content: string, c: Client, write: bool)
    requires Inv(s)
    ensures Marked(s, ExecAppend(s, p, content, c, write).0)
  {
    if content != "" && p in s.tab && AppendCheck(s, s.tab[p], content, c, write).None? {
      LoopMarks(s, p, content, []);
    }
  }

  lemma {:induction false} OpenNewMarks(s: Store, p: Path, c: Client, lock: bool, evicted: Option<ResultFile>)
    requires Shape(s) && p !in s.tab
    ensures var t := OpenNew(s, p, c, lock, evicted).0;
      && t.size == s.size && t.maxBytes == s.maxBytes
      && t.num == s.num + 1 && t.maxNum == Max(s.num + 1, s.maxNum)
  {
  }

  lemma {:induction false} OpenMarks(s: Store, p: Path, flags: int, c: Client)
    requires Inv(s)
    ensures Marked(s, ExecOpen(s, p, flags, c).0)
  {
    if ValidFlags(flags) && p !in s.tab && HasCreate(flags) {
      if s.num == s.maxFiles {
        if Pick(s, None).Some? {
          var (v, s1) := Pick(s, None).value;
          OpenNewMarks(Drop(s1, v).0, p, c, HasLock(flags), Some(Drop(s1, v).1));
        }
      } else {
        OpenNewMarks(s, p, c, HasLock(flags), None);
      }
    }
  }

  lemma {:induction false} OtherMarks(s: Store, op: Op)
    requires Inv(s) && Named(op) && !op.Append? && !op.Open?
    ensures Marked(s, Exec(s, op).0)
  {
  }

  lemma {:induction false} ExecMarks(s: Store, op: Op)
    requires Inv(s) && Named(op)
    ensures Marked(s, Exec(s, op).0)
  {
    if op.Append? {
      AppendMarks(s, op.path, op.content, op.c, op.write);
    } else if op.Open? {
      OpenMarks(s, op.path, op.flags, op.c);
    } else {
      OtherMarks(s, op);
    }
  }

  /** After every run the two marks are the most bytes and the most files that there ever were. */
  lemma {:induction false} MarksAreHighest(maxSize: nat, maxFiles: nat, policy: Policy, ops: seq<Op>)
    requires 0 < maxSize && 0 < maxFiles && AllNamed(ops)
    ensures var s := Empty(maxSize, maxFiles, policy);
      && Run(s, ops).maxBytes == Highest(Bytes(), s, ops)
      && Run(s, ops).maxNum == Highest(FileCount(), s, ops)
    decreases |ops|
  {
    if ops != [] {
      var n := |ops| - 1;
      assert forall op :: op in ops[..n] ==> op in ops;
      MarksAreHighest(maxSize, maxFiles, policy, ops[..n]);
      ReachableInv(maxSize, maxFiles, policy, ops[..n]);
      ExecMarks(Run(Empty(maxSize, maxFiles, policy), ops[..n]), ops[n]);
    }
  }
}
