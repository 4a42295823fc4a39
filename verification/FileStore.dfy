/** The file store as the objects the code works on: files that are updated in place, a list of
    them and an index by path. Every operation is proved to turn the store's value into the one that
    `StoreSpec` says, and to give the answer that it says. The locks are in `Protocol`. */
module FileStore {
  import opened StoreTypes
  import opened StoreSpec
  import opened Sequences

  class File {
    const path: Path
    var data: string
    var lockedBy: Client
    var canWrite: Client
    var waiters: seq<Client>
    var openers: seq<Client>

    constructor (path: Path, writer: Client)
      ensures this.path == path && Value() == NewFile(writer)
    {
      this.path := path;
      data, lockedBy, canWrite := "", NOBODY, writer;
      waiters, openers := [], [];
    }

    function Value(): FileState
      reads this
    {
      FileState(data, lockedBy, canWrite, waiters, openers)
    }

    /** A one-file effect, in place. */
    method Perform(e: Effect) returns (reply: Reply)
      modifies this
      ensures (Value(), reply) == Apply(e, path, old(Value()))
    {
      match e
      case OpenIt(c, lock, existed, evicted) => reply := Open(c, lock, existed, evicted);
      case ReadIt(c) => reply := Read(c);
      case LockIt(c) => reply := Lock(c);
      case UnlockIt(c) => reply := Unlock(c);
      case CloseIt(c) => reply := Close(c);
    }

    method Open(c: Client, lock: bool, existed: bool, evicted: Option<ResultFile>) returns (reply: Reply)
      modifies this
      ensures (Value(), reply) == ApplyOpen(OpenIt(c, lock, existed, evicted), old(Value()))
    {
      if lockedBy != NOBODY && lockedBy != c {
        return Fail(FileIsLocked);
      }
      if c in openers {
        return Fail(FileAlreadyOpened);
      }
      if lock {
        lockedBy := c;
      }
      openers := [c] + openers;
      if existed {
        canWrite := NOBODY;
      }
      reply := Opened(evicted);
    }

    method Read(c: Client) returns (reply: Reply)
      modifies this
      ensures (Value(), reply) == ApplyRead(c, path, old(Value()))
    {
      if lockedBy != NOBODY && lockedBy != c {
        return Fail(FileIsLocked);
      }
      if c !in openers {
        return Fail(FileNotOpened);
      }
      canWrite := NOBODY;
      reply := Data(ResultFile(path, data, []));
    }

    method Lock(c: Client) returns (reply: Reply)
      modifies this
      ensures (Value(), reply) == ApplyLock(c, old(Value()))
    {
      canWrite := NOBODY;
      if lockedBy != c && lockedBy != NOBODY {
        if c in waiters {
          return Fail(FileAlreadyLocked);
        }
        waiters := waiters + [c];
        return Fail(FileIsLocked);
      }
      if lockedBy == c {
        return Fail(FileAlreadyLocked);
      }
      lockedBy := c;
      reply := Done;
    }

    method Unlock(c: Client) returns (reply: Reply)
      modifies this
      ensures (Value(), reply) == ApplyUnlock(c, old(Value()))
    {
      canWrite := NOBODY;
      if lockedBy != c {
        return Fail(FileIsLocked);
      }
      if lockedBy == NOBODY {
        return Fail(FileNotLocked);
      }
      var next := NOBODY;
      reply := Unlocked(None);
      if waiters != [] {
        next := waiters[0];
        waiters := waiters[1..];
        reply := Unlocked(Some(next));
      }
      lockedBy := next;
    }

    method Close(c: Client) returns (reply: Reply)
      modifies this
      ensures (Value(), reply) == ApplyClose(c, old(Value()))
    {
      if c !in openers {
        return Fail(FileNotOpened);
      }
      openers := Remove1(openers, c);
      reply := Done;
    }

    method Extend(content: string)
      modifies this
      ensures Value() == old(Value()).(data := old(data) + content, canWrite := NOBODY)
    {
      data := data + content;
      canWrite := NOBODY;
    }

    /** evictClientInternal: the client leaves, and the first waiter takes over its lock. */
    method LetGo(c: Client) returns (next: Option<Client>)
      modifies this
      ensures (Value(), next) == Depart(c, old(Value()))
    {
      next := None;
      if lockedBy == c {
        lockedBy := NOBODY;
        if waiters != [] {
          next := Some(waiters[0]);
          waiters := waiters[1..];
        }
      }
      if canWrite == c {
        canWrite := NOBODY;
      }
      if next.Some? {
        lockedBy := next.value;
      }
      openers := Remove1(openers, c);
      waiters := Remove1(waiters, c);
    }
  }

  function Paths(files: seq<File>): (ps: seq<Path>)
    ensures |ps| == |files|
  {
    seq(|files|, i requires 0 <= i < |files| => files[i].path)
  }

  function Values(dict: map<Path, File>): map<Path, FileState>
    reads dict.Values
  {
    map p | p in dict :: dict[p].Value()
  }

  class FileSystem {
    const maxSize: nat
    const maxFiles: nat
    const policy: Policy
    var files: seq<File>
    var dict: map<Path, File>
    var size: int
    var num: int
    var maxNum: int
    var maxBytes: int
    var runs: nat

    ghost predicate Valid()
      reads this
    {
      Indexed(files, dict)
    }

    ghost function View(): Store
      reads this, dict.Values
    {
      Store(maxSize, maxFiles, policy, Paths(files), Values(dict), size, num, maxNum, maxBytes, runs)
    }

    constructor (maxSize: nat, maxFiles: nat, policy: Policy)
      ensures Valid() && View() == Empty(maxSize, maxFiles, policy)
    {
      this.maxSize, this.maxFiles, this.policy := maxSize, maxFiles, policy;
      files, dict := [], map[];
      size, num, maxNum, maxBytes, runs := 0, 0, 0, 0, 0;
    }

    lemma {:induction false} Shaped()
      requires Valid()
      ensures Shape(View()) && forall p :: p in dict ==> p in View().order
    {
      IndexedShape(files, dict);
    }

    /** A one-file effect on an indexed file leaves the other files alone. */
    method Visit(p: Path, e: Effect) returns (reply: Reply)
      requires Valid() && p in dict
      modifies dict[p]
      ensures Valid() && Shape(old(View())) && p in old(View()).tab
      ensures (View(), reply) == Deliver(old(View()), p, e)
    {
      Shaped();
      reply := dict[p].Perform(e);
      assert Values(dict) == old(Values(dict))[p := dict[p].Value()];
    }

    /** List_insertHead of what List_searchExtract finds. */
    method MoveToTop(p: Path)
      requires Valid() && p in dict
      modifies this`files
      ensures Valid()
      ensures View() == old(View()).(order := MoveToFront(old(View()).order, p))
    {
      IndexedMove(files, dict, p);
      files := [dict[p]] + Extract(files, p);
    }

    /** The use of a file that was found. */
    method TouchFile(p: Path)
      requires Valid() && p in dict
      modifies this`files
      ensures Valid() && Shape(old(View())) && p in old(View()).tab && p in old(View()).order
      ensures View() == Touch(old(View()), p)
    {
      Shaped();
      if policy == Lru {
        MoveToTop(p);
      }
    }

    /** Valid, but for an indexed file that was taken off the list. */
    ghost predicate ValidWithout(v: Path)
      reads this
    {
      v in dict && dict[v].path == v && v !in Paths(files) && Indexed(files, dict - {v})
    }

    /** Takes file number k off the list. */
    method TakeOut(k: nat) returns (file: File)
      requires Valid() && k < |files|
      modifies this`files
      ensures file == old(files)[k] && files == old(files)[..k] + old(files)[k + 1..]
      ensures Paths(files) == old(Paths(files))[..k] + old(Paths(files))[k + 1..]
      ensures file.path in dict && dict[file.path] == file && ValidWithout(file.path)
    {
      file := files[k];
      IndexedTakeOut(files, dict, k);
      ghost var order := Paths(files);
      files := files[..k] + files[k + 1..];
      assert Paths(files) == order[..k] + order[k + 1..];
    }

    /** Which file of the list FileSystem_evict takes: the last one, or the one before it if the last
        one is protected. */
    method FindVictim(protect: Option<Path>) returns (k: int)
      requires Valid()
      ensures Shape(View())
      ensures var picked := Pick(View(), protect);
        if picked.None? then k == -1
        else 0 <= k < |files| && picked.value.0 == files[k].path
             && picked.value.1 == View().(order := Paths(files)[..k] + Paths(files)[k + 1..])
    {
      Shaped();
      PickAt(View(), protect);
      var n := |files|;
      if n == 0 || (n == 1 && protect == Some(files[0].path)) {
        return -1;
      }
      k := if protect == Some(files[n - 1].path) then n - 2 else n - 1;
    }

    /** The first half of FileSystem_evict: takes the victim off the list. */
    method TakeVictim(protect: Option<Path>) returns (victim: Option<File>)
      requires Valid()
      modifies this`files
      ensures Shape(old(View()))
      ensures var picked := Pick(old(View()), protect);
        if picked.None? then victim.None? && Valid() && files == old(files)
        else victim.Some? && victim.value.path == picked.value.0 && ValidWithout(picked.value.0)
             && dict[picked.value.0] == victim.value && View() == picked.value.1 && |files| == |old(files)| - 1
    {
      var k := FindVictim(protect);
      if k == -1 {
        return None;
      }
      var file := TakeOut(k);
      victim := Some(file);
    }

    /** The second half: the victim leaves the index and the counters. */
    method DropFile(file: File) returns (r: ResultFile)
      requires ValidWithout(file.path) && dict[file.path] == file
      requires Shape(View()) && file.path in View().tab && file.path !in View().order
      modifies this`dict, this`num, this`size, this`runs
      ensures Valid() && (View(), r) == Drop(old(View()), file.path)
      ensures dict == old(dict) - {file.path}
    {
      dict := dict - {file.path};
      num := num - 1;
      size := size - |file.data|;
      runs := runs + 1;
      r := ResultFile(file.path, file.data, file.waiters);
      assert Values(dict) == old(Values(dict)) - {file.path};
    }

    method Evict(protect: Option<Path>) returns (r: Option<ResultFile>)
      requires Valid()
      modifies this
      ensures Valid() && Shape(old(View()))
      ensures match Pick(old(View()), protect)
              case None => r.None? && View() == old(View())
              case Some((v, s1)) => v in s1.tab && v !in s1.order && r.Some? && (View(), r.value) == Drop(s1, v)
      ensures forall p :: p in dict ==> p in old(dict) && dict[p] == old(dict)[p]
      ensures forall p :: Some(p) == protect && p in old(dict) ==> p in dict
      ensures r.Some? ==> |files| < |old(files)|
    {
      Shaped();
      var victim := TakeVictim(protect);
      if victim.None? {
        return None;
      }
      var rf := DropFile(victim.value);
      r := Some(rf);
    }

    /** Puts a file in front of the list and into the index. */
    method Insert(file: File)
      requires Valid() && file.path !in dict
      modifies this`files, this`dict
      ensures Valid() && file.path in dict && dict[file.path] == file
      ensures View() == old(View()).(order := [file.path] + old(View()).order,
        tab := old(View()).tab[file.path := file.Value()])
    {
      IndexedCons(files, dict, file);
      files := [file] + files;
      dict := dict[file.path := file];
      assert Values(dict) == old(Values(dict))[file.path := file.Value()];
    }

    method AddFile(p: Path, writer: Client)
      requires Valid() && p !in dict
      modifies this
      ensures Valid() && Shape(old(View())) && p !in old(View()).tab && p in dict && fresh(dict[p])
      ensures View() == Create(old(View()), p, writer)
    {
      Shaped();
      var file := new File(p, writer);
      Insert(file);
      num := num + 1;
      maxNum := if num > maxNum then num else maxNum;
    }

    method OpenFile(p: Path, flags: int, c: Client) returns (reply: Reply)
      requires Valid()
      modifies this, dict.Values
      ensures Valid() && Shape(old(View()))
      ensures (View(), reply) == Exec(old(View()), Op.Open(p, flags, c))
    {
      Shaped();
      if !ValidFlags(flags) {
        return Fail(InvalidArguments);
      }
      if p in dict && HasCreate(flags) {
        return Fail(FileAlreadyIn);
      }
      if p !in dict && !HasCreate(flags) {
        return Fail(FileNotFound);
      }
      if p in dict {
        TouchFile(p);
        reply := Visit(p, OpenIt(c, HasLock(flags), true, None));
      } else {
        var evicted := None;
        if num == maxFiles {
          evicted := Evict(None);
          if evicted.None? {
            return Fail(FailedEvict);
          }
        }
        AddFile(p, if HasLock(flags) then c else NOBODY);
        reply := Visit(p, OpenIt(c, HasLock(flags), false, evicted));
      }
    }

    /** Read, lock, unlock and close find their file, move it to the front under LRU, and work on it. */
    method FindAndVisit(p: Path, e: Effect) returns (reply: Reply)
      requires Valid()
      modifies this`files, dict.Values
      ensures Valid() && Shape(old(View()))
      ensures (View(), reply) == Enter(old(View()), p, e)
    {
      Shaped();
      if p !in dict {
        return Fail(FileNotFound);
      }
      TouchFile(p);
      reply := Visit(p, e);
    }

    method ReadFile(p: Path, c: Client) returns (reply: Reply)
      requires Valid()
      modifies this`files, dict.Values
      ensures Valid() && Shape(old(View()))
      ensures (View(), reply) == Exec(old(View()), Op.Read(p, c))
    {
      reply := FindAndVisit(p, ReadIt(c));
    }

    method LockFile(p: Path, c: Client) returns (reply: Reply)
      requires Valid()
      modifies this`files, dict.Values
      ensures Valid() && Shape(old(View()))
      ensures (View(), reply) == Exec(old(View()), Op.Lock(p, c))
    {
      reply := FindAndVisit(p, LockIt(c));
    }

    method UnlockFile(p: Path, c: Client) returns (reply: Reply)
      requires Valid()
      modifies this`files, dict.Values
      ensures Valid() && Shape(old(View()))
      ensures (View(), reply) == Exec(old(View()), Op.Unlock(p, c))
    {
      reply := FindAndVisit(p, UnlockIt(c));
    }

    method CloseFile(p: Path, c: Client) returns (reply: Reply)
      requires Valid()
      modifies this`files, dict.Values
      ensures Valid() && Shape(old(View()))
      ensures (View(), reply) == Exec(old(View()), Op.Close(p, c))
    {
      reply := FindAndVisit(p, CloseIt(c));
    }

    /** The bulk read: the loop over the list with its counter, then the moves to the front. */
    method ReadNFiles(n: int, c: Client) returns (reply: Reply)
      requires Valid()
      modifies this`files
      ensures Valid() && Shape(old(View()))
      ensures (View(), reply) == Exec(old(View()), ReadN(n, c))
    {
      Shaped();
      ghost var s := View();
      var read := ReadLoop(n, c);
      ReadRestPaths(s.tab, s.order, ReadLimit(n, |s.order|), c, []);
      if policy == Lru {
        MoveReadFiles(read);
      }
      reply := Files(read);
    }

    lemma {:induction false} FileAt(i: nat)
      requires Valid() && i < |files|
      ensures View().order[i] == files[i].path && files[i].path in View().tab
      ensures View().tab[files[i].path] == files[i].Value()
    {
    }

    method ReadLoop(n: int, c: Client) returns (read: seq<ResultFile>)
      requires Valid()
      ensures Shape(View())
      ensures read == ReadRest(View().tab, View().order, ReadLimit(n, |View().order|), c, [])
    {
      Shaped();
      ghost var tab, order := View().tab, View().order;
      var counter := ReadLimit(n, |files|);
      read := [];
      var i := 0;
      ghost var goal := ReadRest(tab, order, counter, c, read);
      assert order[0..] == order;
      while i < |files|
        invariant 0 <= i <= |files|
        invariant (forall p :: p in order[i..] ==> p in tab) && goal == ReadRest(tab, order[i..], counter, c, read)
      {
        FileAt(i);
        ReadTurn(tab, order, i, counter, c, read);
        counter, read := ReadOne(files[i], counter, c, read);
        i := i + 1;
      }
    }

    /** readNFiles: a file is read while the counter lasts, unless another client has locked it. */
    static method ReadOne(file: File, counter: int, c: Client, read: seq<ResultFile>)
      returns (counter2: int, read2: seq<ResultFile>)
      ensures var skip := counter <= 0 || LockedByOther(file.Value(), c);
        && counter2 == (if skip then counter else counter - 1)
        && read2 == (if skip then read else [ResultFile(file.path, file.Value().data, [])] + read)
    {
      counter2, read2 := counter, read;
      if counter > 0 {
        counter2 := counter - 1;
        if file.lockedBy != NOBODY && file.lockedBy != c {
          counter2 := counter2 + 1;
        } else {
          read2 := [ResultFile(file.path, file.data, [])] + read;
        }
      }
    }

    /** moveFilesLRU over the files that were read. */
    method MoveReadFiles(read: seq<ResultFile>)
      requires Valid() && forall rf :: rf in read ==> rf.path in dict
      modifies this`files
      ensures Valid()
      ensures View() == old(View()).(order := MoveAll(old(View()).order, read))
    {
      var j := 0;
      while j < |read|
        invariant 0 <= j <= |read| && Valid()
        invariant View() == old(View()).(order := View().order)
        invariant MoveAll(old(View()).order, read) == MoveAll(View().order, read[j..])
      {
        assert read[j..][0] == read[j] && read[j..][1..] == read[j + 1..];
        MoveToTop(read[j].path);
        j := j + 1;
      }
    }

    method AppendToFile(p: Path, content: string, c: Client, write: bool) returns (reply: Reply)
      requires Valid()
      modifies this, dict.Values
      ensures Valid() && Shape(old(View()))
      ensures (View(), reply) == Exec(old(View()), Append(p, content, c, write))
    {
      Shaped();
      if |content| == 0 {
        return Fail(InvalidArguments);
      }
      if |content| >= maxSize {
        return Fail(ExceededSize);
      }
      if p !in dict {
        return Fail(FileNotFound);
      }
      var file := dict[p];
      if |file.data| + |content| >= maxSize {
        return Fail(ExceededSize);
      }
      if file.lockedBy != NOBODY && file.lockedBy != c {
        return Fail(FileIsLocked);
      }
      if write && file.canWrite != c {
        return Fail(FileNoWrite);
      }
      if c !in file.openers {
        return Fail(FileNotOpened);
      }
      reply := MakeRoom(p, content);
      if reply.Files? {
        Write(p, content);
      }
    }

    /** The eviction loop of an append. */
    method MakeRoom(p: Path, content: string) returns (reply: Reply)
      requires Valid() && p in dict
      modifies this
      ensures Valid() && p in dict && dict[p] == old(dict)[p]
      ensures Shape(old(View())) && p in old(View()).tab && p in old(View()).order
      ensures Shape(View()) && p in View().tab && p in View().order
      ensures var whole := AppendLoop(old(View()), p, content, []);
        match reply
        case Files(_) => whole == (AppendCommit(View(), p, content), reply)
        case _ => whole == (View(), reply)
    {
      Shaped();
      var evictedFiles: seq<ResultFile> := [];
      while size + |content| >= maxSize && num != 0
        invariant Valid() && p in dict && dict[p] == old(dict)[p]
        invariant forall q :: q in dict ==> q in old(dict) && dict[q] == old(dict)[q]
        invariant Shape(View()) && p in View().tab && p in View().order
        invariant AppendLoop(old(View()), p, content, []) == AppendLoop(View(), p, content, evictedFiles)
        decreases |files|
      {
        var evicted := Evict(Some(p));
        Shaped();
        if evicted.None? {
          return Fail(FailedEvict);
        }
        evictedFiles := [evicted.value] + evictedFiles;
      }
      reply := Files(evictedFiles);
    }

    /** The content goes to the end of the file. */
    method Write(p: Path, content: string)
      requires Valid() && p in dict
      modifies this, dict[p]
      ensures Valid() && Shape(old(View())) && p in old(View()).tab && p in old(View()).order
      ensures View() == AppendCommit(old(View()), p, content)
    {
      Shaped();
      ghost var s := View();
      AddBytes(p, content);
      CommitIs(s, p, content, View());
      TouchFile(p);
    }

    method AddBytes(p: Path, content: string)
      requires Valid() && p in dict
      modifies this`size, this`maxBytes, dict[p]
      ensures Valid() && Shape(View()) && p in old(View()).tab && p in dict
      ensures var s := old(View()); var f := s.tab[p];
        View() == s.(tab := s.tab[p := f.(data := f.data + content, canWrite := NOBODY)], size := s.size + |content|,
                     maxBytes := Max(s.size + |content|, s.maxBytes))
    {
      AddContent(p, content);
      CountBytes(|content|);
      Shaped();
    }

    method CountBytes(n: nat)
      modifies this`size, this`maxBytes
      ensures View() == old(View()).(size := old(size) + n, maxBytes := Max(old(size) + n, old(maxBytes)))
    {
      size := size + n;
      maxBytes := if size > maxBytes then size else maxBytes;
    }

    method AddContent(p: Path, content: string)
      requires Valid() && p in dict
      modifies dict[p]
      ensures Valid() && p in old(View()).tab
      ensures var f := old(View()).tab[p];
        View() == old(View()).(tab := old(View()).tab[p := f.(data := f.data + content, canWrite := NOBODY)])
    {
      dict[p].Extend(content);
      assert Values(dict) == old(Values(dict))[p := dict[p].Value()];
    }

    /** Takes a file out of the list, the index and the counters. */
    method Unlink(p: Path)
      requires Valid() && p in dict
      modifies this`files, this`dict, this`num, this`size
      ensures Valid()
      ensures View() == old(View()).(order := Remove1(old(View()).order, p), tab := old(View()).tab - {p},
                                     num := old(num) - 1, size := old(size) - |old(dict[p].data)|)
    {
      IndexedMove(files, dict, p);
      size := size - |dict[p].data|;
      num := num - 1;
      files := Extract(files, p);
      dict := dict - {p};
      assert Values(dict) == old(Values(dict)) - {p};
    }

    method RemoveFile(p: Path, c: Client) returns (reply: Reply)
      requires Valid()
      modifies this
      ensures Valid() && Shape(old(View()))
      ensures (View(), reply) == Exec(old(View()), Op.Remove(p, c))
    {
      Shaped();
      if p !in dict {
        return Fail(FileNotFound);
      }
      reply := RemoveFound(p, c);
    }

    method RemoveFound(p: Path, c: Client) returns (reply: Reply)
      requires Valid() && p in dict
      modifies this
      ensures Valid() && Shape(old(View())) && p in old(View()).tab && p in old(View()).order
      ensures (View(), reply) == RemoveInside(old(View()), p, c)
    {
      Shaped();
      var file := dict[p];
      if file.lockedBy != NOBODY && file.lockedBy != c {
        return Fail(FileIsLocked);
      }
      if file.lockedBy == NOBODY {
        return Fail(FileNotLocked);
      }
      reply := Removed(file.waiters);
      Unlink(p);
    }

    /** One listed file lets the client go; the others stay as they are. */
    method LetGoAt(i: nat, c: Client) returns (next: Option<Client>)
      requires Valid() && i < |files|
      modifies files[i]
      ensures Valid() && old(files[i].path) in old(Values(dict))
      ensures var (f, n) := Depart(c, old(Values(dict)[files[i].path]));
        Values(dict) == old(Values(dict))[files[i].path := f] && next == n
    {
      next := files[i].LetGo(c);
      assert Values(dict) == old(Values(dict))[files[i].path := files[i].Value()];
    }

    /** The loop of FileSystem_evictClient: every file lets the client go. */
    method LetGoAll(c: Client) returns (gained: seq<Client>)
      requires Valid()
      modifies dict.Values
      ensures Valid() && forall p :: p in Paths(files) ==> p in old(Values(dict))
      ensures DepartRest(old(Values(dict)), Paths(files), c, []) == (Values(dict), gained)
    {
      Shaped();
      ghost var order := Paths(files);
      ghost var tab := Values(dict);
      gained := [];
      var i := 0;
      while i < |files|
        invariant 0 <= i <= |files|
        invariant DepartRest(tab, order, c, []) == DepartRest(Values(dict), order[i..], c, gained)
      {
        assert order[i..][0] == files[i].path && order[i..][1..] == order[i + 1..];
        var next := LetGoAt(i, c);
        if next.Some? {
          gained := [next.value] + gained;
        }
        i := i + 1;
      }
    }

    method EvictClient(c: Client) returns (reply: Reply)
      requires Valid()
      modifies dict.Values
      ensures Valid() && Shape(old(View()))
      ensures (View(), reply) == Exec(old(View()), Op.EvictClient(c))
    {
      Shaped();
      var gained := LetGoAll(c);
      reply := Gained(gained);
    }
  }

  /** One turn of the loop of a bulk read. */
  lemma {:induction false} ReadTurn(tab: map<Path, FileState>, order: seq<Path>, i: nat, counter: int, c: Client,
      read: seq<ResultFile>)
    requires i < |order| && forall p :: p in order ==> p in tab
    ensures order[i] in tab && (forall p :: p in order[i..] ==> p in tab)
      && (forall p :: p in order[i + 1..] ==> p in tab)
    ensures var f := tab[order[i]];
      ReadRest(tab, order[i..], counter, c, read) ==
      if counter <= 0 || LockedByOther(f, c) then ReadRest(tab, order[i + 1..], counter, c, read)
      else ReadRest(tab, order[i + 1..], counter - 1, c, [ResultFile(order[i], f.data, [])] + read)
  {
    assert order[i..][0] == order[i] && order[i..][1..] == order[i + 1..];
  }

  lemma {:induction false} CommitIs(s: Store, p: Path, content: string, s1: Store)
    requires Shape(s) && p in s.tab && p in s.order && Shape(s1) && p in s1.tab
    requires var f := s.tab[p];
      s1 == s.(tab := s.tab[p := f.(data := f.data + content, canWrite := NOBODY)], size := s.size + |content|,
               maxBytes := Max(s.size + |content|, s.maxBytes))
    ensures AppendCommit(s, p, content) == Touch(s1, p)
  {
  }

  /** Pick, by the place of the victim in the list. */
  lemma {:induction false} PickAt(s: Store, protect: Option<Path>)
    requires Shape(s)
    ensures var n := |s.order|;
      if n == 0 || (n == 1 && protect == Some(s.order[0])) then Pick(s, protect).None?
      else
        var k := if protect == Some(s.order[n - 1]) then n - 2 else n - 1;
        Pick(s, protect) == Some((s.order[k], s.(order := s.order[..k] + s.order[k + 1..])))
  {
    var n := |s.order|;
    if n > 0 {
      assert s.order[n - 1..] == [s.order[n - 1]];
      assert s.order[..n - 1] + s.order[n..] == s.order[..n - 1];
    }
  }

  /** The list and the index hold the same files, each under its own path. */
  ghost predicate Indexed(files: seq<File>, dict: map<Path, File>) {
    && NoDup(Paths(files))
    && (forall i :: 0 <= i < |files| ==> files[i].path in dict && dict[files[i].path] == files[i])
    && (forall p :: p in dict ==> dict[p].path == p && dict[p] in files)
  }

  lemma {:induction false} InPaths(files: seq<File>, f: File)
    requires f in files
    ensures f.path in Paths(files)
  {
    var i :| 0 <= i < |files| && files[i] == f;
    assert Paths(files)[i] == f.path;
  }

  lemma {:induction false} IndexedShape(files: seq<File>, dict: map<Path, File>)
    requires Indexed(files, dict)
    ensures NoDup(Paths(files)) && forall p :: p in Paths(files) <==> p in dict
  {
    forall p | p in dict ensures p in Paths(files) { InPaths(files, dict[p]); }
  }

  lemma {:induction false} IndexedCons(files: seq<File>, dict: map<Path, File>, f: File)
    requires Indexed(files, dict) && f.path !in dict
    ensures Indexed([f] + files, dict[f.path := f]) && Paths([f] + files) == [f.path] + Paths(files)
  {
    IndexedShape(files, dict);
    assert Paths([f] + files) == [f.path] + Paths(files);
    NoDupCons(f.path, Paths(files));
  }

  lemma {:induction false} IndexedMove(files: seq<File>, dict: map<Path, File>, p: Path)
    requires Indexed(files, dict) && p in dict
    ensures var rest := Extract(files, p);
      && Indexed(rest, dict - {p}) && Paths(rest) == Remove1(Paths(files), p)
      && Indexed([dict[p]] + rest, dict) && Paths([dict[p]] + rest) == MoveToFront(Paths(files), p)
  {
    ExtractKeeps(files, p);
    var rest := Extract(files, p);
    forall i | 0 <= i < |rest| ensures rest[i].path != p && rest[i].path in dict && dict[rest[i].path] == rest[i] {
      var k :| 0 <= k < |files| && files[k] == rest[i];
    }
    IndexedCons(rest, dict - {p}, dict[p]);
    assert (dict - {p})[p := dict[p]] == dict;
  }

  lemma {:induction false} IndexedTakeOut(files: seq<File>, dict: map<Path, File>, k: nat)
    requires Indexed(files, dict) && k < |files|
    ensures var rest := files[..k] + files[k + 1..];
      Indexed(rest, dict - {files[k].path}) && files[k].path !in Paths(rest)
  {
    var ps := Paths(files);
    var rest := files[..k] + files[k + 1..];
    NoDupTakeOut(ps, k);
    assert Paths(rest) == ps[..k] + ps[k + 1..];
    forall i | 0 <= i < |rest| ensures rest[i].path != files[k].path && rest[i].path in dict
      && dict[rest[i].path] == rest[i] {
      assert rest[i] == files[if i < k then i else i + 1];
      NoDupAt(ps, if i < k then i else k, if i < k then k else i + 1);
    }
    forall q | q in dict && q != files[k].path ensures dict[q] in rest {
      var i :| 0 <= i < |files| && files[i] == dict[q];
      assert rest[if i < k then i else i - 1] == files[i];
    }
  }

  /** List_searchExtract by path: the list without the first file of that path. */
  function Extract(files: seq<File>, p: Path): seq<File> {
    if files == [] then []
    else if files[0].path == p then files[1..]
    else [files[0]] + Extract(files[1..], p)
  }

  lemma {:induction false} ExtractPaths(files: seq<File>, p: Path)
    ensures Paths(Extract(files, p)) == Remove1(Paths(files), p)
  {
    if files != [] {
      assert Paths(files)[1..] == Paths(files[1..]);
      ExtractPaths(files[1..], p);
      if files[0].path != p {
        assert Paths([files[0]] + Extract(files[1..], p)) == [files[0].path] + Paths(Extract(files[1..], p));
      }
    }
  }

  lemma {:induction false} ExtractIn(files: seq<File>, p: Path)
    ensures forall f :: f in files && f.path != p ==> f in Extract(files, p)
    ensures forall i :: 0 <= i < |Extract(files, p)| ==> Extract(files, p)[i] in files
  {
    if files != [] { ExtractIn(files[1..], p); }
  }

  lemma {:induction false} ExtractKeeps(files: seq<File>, p: Path)
    requires NoDup(Paths(files))
    ensures Paths(Extract(files, p)) == Remove1(Paths(files), p)
    ensures NoDup(Paths(Extract(files, p))) && p !in Paths(Extract(files, p))
    ensures forall i :: 0 <= i < |Extract(files, p)| ==> Extract(files, p)[i] in files && Extract(files, p)[i].path != p
    ensures forall f :: f in files && f.path != p ==> f in Extract(files, p)
  {
    NoDupRemove1(Paths(files), p);
    ExtractPaths(files, p);
    ExtractIn(files, p);
    var rest := Extract(files, p);
    forall i | 0 <= i < |rest| ensures rest[i].path != p { assert Paths(rest)[i] == rest[i].path; }
  }
}
