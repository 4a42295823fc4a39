/** What every operation of the store computes, one whole operation at a time. The class in
    `FileStore` and the interleaved machine in `Protocol` are both proved against these
    functions, and the properties of the store are proved about them. */
module StoreSpec {
  import opened StoreTypes
  import opened Sequences

  /** List_insertHead of what List_searchExtract found. */
  function MoveToFront(order: seq<Path>, p: Path): seq<Path> {
    [p] + Remove1(order, p)
  }

  // ---------- one file ----------

  predicate LockedByOther(f: FileState, c: Client) {
    f.lockedBy != NOBODY && f.lockedBy != c
  }

  /** The part of an operation that works on one file only. */
  datatype Effect =
    | OpenIt(c: Client, lock: bool, existed: bool, evicted: Option<ResultFile>)
    | ReadIt(c: Client)
    | LockIt(c: Client)
    | UnlockIt(c: Client)
    | CloseIt(c: Client)

  function ApplyOpen(e: Effect, f: FileState): (FileState, Reply)
    requires e.OpenIt?
  {
    if LockedByOther(f, e.c) then (f, Fail(FileIsLocked))
    else if e.c in f.openers then (f, Fail(FileAlreadyOpened))
    else (f.(lockedBy := if e.lock then e.c else f.lockedBy,
             openers := [e.c] + f.openers,
             canWrite := if e.existed then NOBODY else f.canWrite),
          Opened(e.evicted))
  }

  predicate ReadOk(f: FileState, c: Client) {
    !LockedByOther(f, c) && c in f.openers
  }

  function ApplyRead(c: Client, p: Path, f: FileState): (FileState, Reply) {
    if LockedByOther(f, c) then (f, Fail(FileIsLocked))
    else if c !in f.openers then (f, Fail(FileNotOpened))
    else (f.(canWrite := NOBODY), Data(ResultFile(p, f.data, [])))
  }

  /** Locking drops the write permission before anything is checked. */
  function ApplyLock(c: Client, f: FileState): (FileState, Reply) {
    var g := f.(canWrite := NOBODY);
    if LockedByOther(f, c) then
      if c in f.waiters then (g, Fail(FileAlreadyLocked))
      else (g.(waiters := f.waiters + [c]), Fail(FileIsLocked))
    else if f.lockedBy == c then (g, Fail(FileAlreadyLocked))
    else (g.(lockedBy := c), Done)
  }

  function ApplyUnlock(c: Client, f: FileState): (FileState, Reply) {
    var g := f.(canWrite := NOBODY);
    if f.lockedBy != c then (g, Fail(FileIsLocked))
    else if f.lockedBy == NOBODY then (g, Fail(FileNotLocked))
    else if f.waiters != [] then
      (g.(lockedBy := f.waiters[0], waiters := f.waiters[1..]), Unlocked(Some(f.waiters[0])))
    else (g.(lockedBy := NOBODY), Unlocked(None))
  }

  function ApplyClose(c: Client, f: FileState): (FileState, Reply) {
    if c !in f.openers then (f, Fail(FileNotOpened))
    else (f.(openers := Remove1(f.openers, c)), Done)
  }

  function Apply(e: Effect, p: Path, f: FileState): (FileState, Reply) {
    match e
    case OpenIt(_, _, _, _) => ApplyOpen(e, f)
    case ReadIt(c) => ApplyRead(c, p, f)
    case LockIt(c) => ApplyLock(c, f)
    case UnlockIt(c) => ApplyUnlock(c, f)
    case CloseIt(c) => ApplyClose(c, f)
  }

  /** The departure of client c from one file; the second part is the client that got the lock. */
  function Depart(c: Client, f: FileState): (FileState, Option<Client>) {
    var next := if f.lockedBy == c && f.waiters != [] then Some(f.waiters[0]) else None;
    var left := if f.lockedBy == c && f.waiters != [] then f.waiters[1..] else f.waiters;
    var holder := if f.lockedBy != c then f.lockedBy else if next.Some? then next.value else NOBODY;
    (f.(lockedBy := holder,
        canWrite := if f.canWrite == c then NOBODY else f.canWrite,
        openers := Remove1(f.openers, c),
        waiters := Remove1(left, c)),
     next)
  }

  // ---------- the store ----------

  /** Every listed path is indexed, and no path is listed twice. */
  ghost predicate Shape(s: Store) {
    NoDup(s.order) && forall p :: p in s.order ==> p in s.tab
  }

  function Touch(s: Store, p: Path): (r: Store)
    requires Shape(s) && p in s.tab && p in s.order
    ensures Shape(r) && r.tab == s.tab && forall q :: q in r.order <==> q in s.order
  {
    NoDupRemove1(s.order, p);
    if s.policy == Lru then s.(order := MoveToFront(s.order, p)) else s
  }

  /** The victim that FileSystem_evict takes off the list: the last file, or the one before it
      when the last one is protected. */
  function Pick(s: Store, protect: Option<Path>): (r: Option<(Path, Store)>)
    requires Shape(s)
    ensures r.Some? ==>
      && r.value.0 in s.order && Some(r.value.0) != protect
      && Shape(r.value.1) && r.value.1 == s.(order := r.value.1.order)
      && |r.value.1.order| == |s.order| - 1
      && (forall q :: q in r.value.1.order <==> q in s.order && q != r.value.0)
  {
    var n := |s.order|;
    if n == 0 then None
    else if protect == Some(s.order[n - 1]) then
      if n == 1 then None
      else
        NoDupTakeOut(s.order, n - 2);
        assert s.order[n - 2 + 1..] == [s.order[n - 1]];
        NoDupAt(s.order, n - 2, n - 1);
        Some((s.order[n - 2], s.(order := s.order[..n - 2] + [s.order[n - 1]])))
    else
      NoDupTakeOut(s.order, n - 1);
      assert s.order[..n - 1] + s.order[n..] == s.order[..n - 1];
      Some((s.order[n - 1], s.(order := s.order[..n - 1])))
  }

  /** The rest of FileSystem_evict, once the victim is off the list and nobody is inside it. */
  function Drop(s: Store, v: Path): (r: (Store, ResultFile))
    requires Shape(s) && v in s.tab && v !in s.order
    ensures Shape(r.0)
  {
    var f := s.tab[v];
    (s.(tab := s.tab - {v}, num := s.num - 1, size := s.size - |f.data|, runs := s.runs + 1),
     ResultFile(v, f.data, f.waiters))
  }

  function Max(a: int, b: int): int { if a > b then a else b }

  function HasCreate(flags: int): bool { flags == O_CREATE || flags == O_CREATE + O_LOCK }

  function HasLock(flags: int): bool { flags == O_LOCK || flags == O_CREATE + O_LOCK }

  predicate ValidFlags(flags: int) {
    flags == O_CREATE || flags == O_LOCK || flags == O_CREATE + O_LOCK || flags == 0
  }

  function NewFile(writer: Client): FileState {
    FileState("", NOBODY, writer, [], [])
  }

  function Create(s: Store, p: Path, writer: Client): (r: Store)
    requires Shape(s) && p !in s.tab
    ensures Shape(r) && p in r.tab && p in r.order
  {
    assert p !in s.order;
    s.(order := [p] + s.order, tab := s.tab[p := NewFile(writer)],
       num := s.num + 1, maxNum := Max(s.num + 1, s.maxNum))
  }

  /** Runs a one-file effect on an indexed file. */
  function Deliver(s: Store, p: Path, e: Effect): (r: (Store, Reply))
    requires Shape(s) && p in s.tab
    ensures Shape(r.0)
  {
    var (f, reply) := Apply(e, p, s.tab[p]);
    (s.(tab := s.tab[p := f]), reply)
  }

  function OpenNew(s: Store, p: Path, c: Client, lock: bool, evicted: Option<ResultFile>): (r: (Store, Reply))
    requires Shape(s) && p !in s.tab
    ensures Shape(r.0)
  {
    Deliver(Create(s, p, if lock then c else NOBODY), p, OpenIt(c, lock, false, evicted))
  }

  function ExecOpen(s: Store, p: Path, flags: int, c: Client): (r: (Store, Reply))
    requires Shape(s)
    ensures Shape(r.0)
  {
    if !ValidFlags(flags) then (s, Fail(InvalidArguments))
    else if p in s.tab && HasCreate(flags) then (s, Fail(FileAlreadyIn))
    else if p !in s.tab && !HasCreate(flags) then (s, Fail(FileNotFound))
    else if p in s.tab then Enter(s, p, OpenIt(c, HasLock(flags), true, None))
    else if s.num == s.maxFiles then
      match Pick(s, None)
      case None => (s, Fail(FailedEvict))
      case Some((v, s1)) =>
        var (s2, rf) := Drop(s1, v);
        OpenNew(s2, p, c, HasLock(flags), Some(rf))
    else OpenNew(s, p, c, HasLock(flags), None)
  }

  /** Find, move to the front under LRU, then the one-file effect: open of a file that is there,
      read, lock, unlock and close all have this form. */
  function Enter(s: Store, p: Path, e: Effect): (r: (Store, Reply))
    requires Shape(s)
    ensures Shape(r.0)
  {
    if p !in s.tab || p !in s.order then (s, Fail(FileNotFound)) else Deliver(Touch(s, p), p, e)
  }

  function AppendCheck(s: Store, f: FileState, content: string, c: Client, write: bool): Option<Error> {
    if |f.data| + |content| >= s.maxSize then Some(ExceededSize)
    else if LockedByOther(f, c) then Some(FileIsLocked)
    else if write && f.canWrite != c then Some(FileNoWrite)
    else if c !in f.openers then Some(FileNotOpened)
    else None
  }

  predicate NeedsRoom(s: Store, content: string) {
    s.size + |content| >= s.maxSize && s.num != 0
  }

  function AppendCommit(s: Store, p: Path, content: string): (r: Store)
    requires Shape(s) && p in s.tab && p in s.order
    ensures Shape(r)
  {
    var f := s.tab[p];
    Touch(s.(tab := s.tab[p := f.(data := f.data + content, canWrite := NOBODY)],
             size := s.size + |content|,
             maxBytes := Max(s.size + |content|, s.maxBytes)), p)
  }

  /** The eviction loop and the write. `acc` holds the evicted files, last one first. */
  function AppendLoop(s: Store, p: Path, content: string, acc: seq<ResultFile>): (r: (Store, Reply))
    requires Shape(s) && p in s.tab && p in s.order
    ensures Shape(r.0)
    decreases |s.order|
  {
    if NeedsRoom(s, content) then
      match Pick(s, Some(p))
      case None => (s, Fail(FailedEvict))
      case Some((v, s1)) =>
        var (s2, rf) := Drop(s1, v);
        AppendLoop(s2, p, content, [rf] + acc)
    else (AppendCommit(s, p, content), Files(acc))
  }

  function AppendInside(s: Store, p: Path, content: string, c: Client, write: bool): (r: (Store, Reply))
    requires Shape(s) && p in s.tab && p in s.order
    ensures Shape(r.0)
  {
    match AppendCheck(s, s.tab[p], content, c, write)
    case Some(e) => (s, Fail(e))
    case None => AppendLoop(s, p, content, [])
  }

  function ExecAppend(s: Store, p: Path, content: string, c: Client, write: bool): (r: (Store, Reply))
    requires Shape(s)
    ensures Shape(r.0)
  {
    if |content| == 0 then (s, Fail(InvalidArguments))
    else if |content| >= s.maxSize then (s, Fail(ExceededSize))
    else if p !in s.tab || p !in s.order then (s, Fail(FileNotFound))
    else AppendInside(s, p, content, c, write)
  }

  /** The reading loop over the paths still to visit; `acc` holds the files read, last one first. */
  function ReadRest(tab: map<Path, FileState>, rest: seq<Path>, counter: int, c: Client,
      acc: seq<ResultFile>): seq<ResultFile>
    requires forall p :: p in rest ==> p in tab
  {
    if rest == [] || counter <= 0 then acc
    else
      var f := tab[rest[0]];
      if LockedByOther(f, c) then ReadRest(tab, rest[1..], counter, c, acc)
      else ReadRest(tab, rest[1..], counter - 1, c, [ResultFile(rest[0], f.data, [])] + acc)
  }

  /** moveFilesLRU over a list of files that were read. */
  function MoveAll(order: seq<Path>, read: seq<ResultFile>): seq<Path>
    decreases |read|
  {
    if read == [] then order else MoveAll(MoveToFront(order, read[0].path), read[1..])
  }

  function ReadLimit(n: int, len: nat): int {
    if n >= len || n <= 0 then len else n
  }

  function MoveRead(s: Store, read: seq<ResultFile>): Store {
    if s.policy == Lru then s.(order := MoveAll(s.order, read)) else s
  }

  function ExecReadN(s: Store, n: int, c: Client): (r: (Store, Reply))
    requires Shape(s)
    ensures Shape(r.0)
  {
    var read := ReadRest(s.tab, s.order, ReadLimit(n, |s.order|), c, []);
    ReadRestPaths(s.tab, s.order, ReadLimit(n, |s.order|), c, []);
    MoveAllShape(s.order, read);
    (MoveRead(s, read), Files(read))
  }

  function RemoveInside(s: Store, p: Path, c: Client): (r: (Store, Reply))
    requires Shape(s) && p in s.tab && p in s.order
    ensures Shape(r.0)
  {
    var f := s.tab[p];
    if LockedByOther(f, c) then (s, Fail(FileIsLocked))
    else if f.lockedBy == NOBODY then (s, Fail(FileNotLocked))
    else
      NoDupRemove1(s.order, p);
      (s.(order := Remove1(s.order, p), tab := s.tab - {p}, num := s.num - 1, size := s.size - |f.data|),
       Removed(f.waiters))
  }

  function ExecRemove(s: Store, p: Path, c: Client): (r: (Store, Reply))
    requires Shape(s)
    ensures Shape(r.0)
  {
    if p !in s.tab || p !in s.order then (s, Fail(FileNotFound)) else RemoveInside(s, p, c)
  }

  /** The visit of every file by evictClientInternal; `acc` holds the new lock owners, last one first. */
  function DepartRest(tab: map<Path, FileState>, rest: seq<Path>, c: Client,
      acc: seq<Client>): (r: (map<Path, FileState>, seq<Client>))
    requires forall p :: p in rest ==> p in tab
    ensures r.0.Keys == tab.Keys
  {
    if rest == [] then (tab, acc)
    else
      var (f, next) := Depart(c, tab[rest[0]]);
      DepartRest(tab[rest[0] := f], rest[1..], c, if next.Some? then [next.value] + acc else acc)
  }

  function ExecEvictClient(s: Store, c: Client): (r: (Store, Reply))
    requires Shape(s)
    ensures Shape(r.0)
  {
    var (tab, gained) := DepartRest(s.tab, s.order, c, []);
    (s.(tab := tab), Gained(gained))
  }

  /** One whole operation: the new store and the answer. */
  function Exec(s: Store, op: Op): (r: (Store, Reply))
    requires Shape(s)
    ensures Shape(r.0)
  {
    match op
    case Open(p, flags, c) => ExecOpen(s, p, flags, c)
    case Read(p, c) => Enter(s, p, ReadIt(c))
    case ReadN(n, c) => ExecReadN(s, n, c)
    case Append(p, content, c, write) => ExecAppend(s, p, content, c, write)
    case Lock(p, c) => Enter(s, p, LockIt(c))
    case Unlock(p, c) => Enter(s, p, UnlockIt(c))
    case Close(p, c) => Enter(s, p, CloseIt(c))
    case Remove(p, c) => ExecRemove(s, p, c)
    case EvictClient(c) => ExecEvictClient(s, c)
  }

  function Empty(maxSize: nat, maxFiles: nat, policy: Policy): (s: Store)
    ensures Shape(s)
  {
    Store(maxSize, maxFiles, policy, [], map[], 0, 0, 0, 0, 0)
  }

  /** The store after a sequence of operations. */
  function Run(s: Store, ops: seq<Op>): (r: Store)
    requires Shape(s)
    ensures Shape(r)
    decreases |ops|
  {
    if ops == [] then s else Exec(Run(s, ops[..|ops| - 1]), ops[|ops| - 1]).0
  }

  /** The answer that operation number i of a sequence gets. */
  function ReplyAt(s: Store, ops: seq<Op>, i: nat): Reply
    requires Shape(s) && i < |ops|
  {
    Exec(Run(s, ops[..i]), ops[i]).1
  }

  // ---------- facts about the list functions ----------

  lemma {:induction false} ReadRestPaths(tab: map<Path, FileState>, rest: seq<Path>, counter: int, c: Client,
      acc: seq<ResultFile>)
    requires forall p :: p in rest ==> p in tab
    ensures forall rf :: rf in ReadRest(tab, rest, counter, c, acc) ==> rf in acc || rf.path in rest
    decreases rest
  {
    if rest != [] && counter > 0 {
      var f := tab[rest[0]];
      if LockedByOther(f, c) {
        ReadRestPaths(tab, rest[1..], counter, c, acc);
      } else {
        ReadRestPaths(tab, rest[1..], counter - 1, c, [ResultFile(rest[0], f.data, [])] + acc);
      }
    }
  }

  lemma {:induction false} MoveAllShape(order: seq<Path>, read: seq<ResultFile>)
    requires NoDup(order)
    requires forall rf :: rf in read ==> rf.path in order
    ensures NoDup(MoveAll(order, read))
    ensures forall p :: p in MoveAll(order, read) <==> p in order
    ensures |MoveAll(order, read)| == |order|
    decreases read
  {
    if read != [] {
      NoDupRemove1(order, read[0].path);
      MoveAllShape(MoveToFront(order, read[0].path), read[1..]);
    }
  }
}
