/** The values of the file store: what one file holds, what the whole store holds, the
    operations a client can ask for and the answers it gets. */
module StoreTypes {

  datatype Option<+T> = None | Some(value: T)

  type Path = string

  /** The id of a client. `NOBODY` marks a lock or a write permission that nobody has. */
  type Client = int

  const NOBODY: Client := 0

  const O_CREATE := 1
  const O_LOCK := 2

  datatype Policy = Fifo | Lru

  datatype Error =
    | ExceededSize
    | InvalidArguments
    | FileAlreadyIn
    | FileNotFound
    | FileIsLocked
    | FileNotOpened
    | FileNoWrite
    | FileNotLocked
    | FileAlreadyLocked
    | FailedEvict
    | FileAlreadyOpened

  datatype FileState = FileState(
    data: string,
    lockedBy: Client,
    canWrite: Client,
    waiters: seq<Client>,
    openers: seq<Client>)

  /** A copy of a file handed out by a read, or a file that was evicted with its waiting clients. */
  datatype ResultFile = ResultFile(path: Path, data: string, waiters: seq<Client>)

  /** `order` is the list of files, front first; `tab` is the index by path. The counters are
      integers because the code subtracts from them; the invariants show they never go below 0. */
  datatype Store = Store(
    maxSize: nat,
    maxFiles: nat,
    policy: Policy,
    order: seq<Path>,
    tab: map<Path, FileState>,
    size: int,
    num: int,
    maxNum: int,
    maxBytes: int,
    runs: nat)

  datatype Op =
    | Open(path: Path, flags: int, c: Client)
    | Read(path: Path, c: Client)
    | ReadN(n: int, c: Client)
    | Append(path: Path, content: string, c: Client, write: bool)
    | Lock(path: Path, c: Client)
    | Unlock(path: Path, c: Client)
    | Close(path: Path, c: Client)
    | Remove(path: Path, c: Client)
    | EvictClient(c: Client)

  datatype Reply =
    | Fail(error: Error)
    | Done
    | Opened(evicted: Option<ResultFile>)
    | Data(file: ResultFile)
    | Files(files: seq<ResultFile>)
    | Unlocked(next: Option<Client>)
    | Removed(orphans: seq<Client>)
    | Gained(clients: seq<Client>)
}
