# A file storage server, verified

The server keeps files in memory and serves them to local clients. This project models its core and proves
what the core is built to guarantee:

- **The store** (`StoreTypes`, `StoreSpec`, `StoreInvariant`, `Replacement`, `Locks`, `History`, `Access`, `Failures`,
  `FileStore`): a cache of files with a byte limit and a file limit, a list and an index by path, FIFO or LRU replacement,
  and for every file a logical lock with a queue of waiting clients, a list of the clients that opened it, and
  a one-shot write permission. `StoreSpec.Exec` says what one whole operation does. The class
  `FileStore.FileSystem` does it in place, and every public operation of the class is proved equal to `Exec`.
- **The store as a concurrent program** (`Protocol`, `ProtocolSafety`, `Exclusion`, `Linearizability`,
  `Progress`): threads with program counters that take the overall mutex, the `ordering` and `mutex` of a file,
  wait on its `go`, count themselves in and out and signal. Answers and contents are those of the operations run
  one after the other through `Exec`.
- **The server** (`Waiting`, `Server`, `Descriptors`, `LostClient`, `Departures`): where the descriptor of a
  client is while the select loop, the queue, the workers, the pipe and the lock queues pass it around.
- **The parts they stand on**: the doubly linked list (`LinkedList`), the chained hash table (`HashTable`), the
  blocking queue (`BlockingQueue`), the path normaliser of the client (`Paths`, `PathNormalizer`, `CStrings`) and
  the buffered logger (`LogBuffer`).

`Sequences` holds what is needed about lists as sequences, `SmallStore` the store of two example runs. A module
is in the file of its name, and `dafny verify dfyconfig.toml` checks them all.

## Findings

Five properties one would expect do not hold of the code. The model keeps the code as it is. The last
column names the members that prove where it fails and, where there is more to say, exactly when it does not.

| expected | what happens | members |
|---|---|---|
| every connected client is watched, queued, served, announced or waiting | when a woken client cannot be told, the clients behind it in the same list are dropped for good (server/server.c:204-236, list/list.c:1219-1223); it holds after a run if and only if no failing send of the run had others behind it | `LostClient.AClientIsLost`, `Descriptors.DescriptorsConserved` |
| a resolved absolute path is absolute | one `..` too many removes the leading slash (client/api/api.c:317-330), so `absolutify` turns `../../x` in `/h` into `x`; it holds if and only if no `..` climbs above the root | `Paths.RootIsLost`, `Paths.ResolveKeepsRoot`, `Paths.AbsolutifyResolves` |
| unlocking a file that nobody has locked is reported as "not locked" | it is always reported as "locked", because that test comes first (file-system/file-system.c:2106-2115) | `Locks.UnlockNeverSaysNotLocked` |
| a failing operation changes nothing | a failing append, create or remove does change nothing; in general a failing operation leaves the store as it was if and only if it neither moves its file to the front under LRU (open, read, lock, unlock, close), nor is a lock or unlock of a file with a write permission, which both clear before their tests (file-system/file-system.c:1877, file-system/file-system.c:2103), nor a refused lock that queues the client; so a client without any part in a file can take the permission of its holder away by an unlock that is refused | `Failures.FailureChanges`, `Failures.RefusedUnlockSpoilsWrite` |
| a message is logged up to the length given with it | it is, if and only if it does not go straight to the file, where it is written whole (logger/logger.c:289), or is not longer than that length; callers that give the length of the message, as all of this program do (server/server.c:94), are not affected | `LogBuffer.Logger.Log`, `LogBuffer.LogTooLong` |

## Model

| member | source | states |
|---|---|---|
| StoreInvariant.ReachableInv | file-system/file-system.c:58-75 | After every sequence of operations of real clients: the list and the index hold the same paths, each once; the file counter is the length of the list and within its limit, the byte counter is the sum of the sizes and below its limit, both high-water marks bound the counters; and in every file the lock queue has no duplicates, leaves out the holder and is empty when nobody holds the lock, and a write permission belongs to the holder of an empty file nobody waits for. |
| StoreInvariant.ExecKeepsInv | file-system/file-system.c:798-2590 | Each of the nine operations, with any arguments, keeps all of that. |
| StoreInvariant.PickSucceeds | file-system/file-system.c:1642-1668 | While the content does not fit, the eviction of a file other than the one appended to always finds a victim: with exact counters it could only fail when that file is alone, and then its content fits. |
| StoreInvariant.EvictKeeps | file-system/file-system.c:762-779 | An eviction keeps the invariant, frees exactly the bytes of its victim and takes exactly its entry out of the index. |
| Access.AccountIsRight | file-system/file-system.c:37-56 | After every run, whether a file is there, who holds its lock, who waits for it in which order, who has opened it and who may write it are what the requests and their answers say: an account that is read off these alone, without the functions that compute them. |
| Access.AnswersAreFair | file-system/test/single_thread/main.c:121-129 | After every run, every request gets exactly the answer that the access rules demand from that account: when it succeeds, and which error it gets when there are several reasons; a read returns everything ever appended since the creation, an unlock the head of the queue, a remove the whole queue, and a create evicts exactly if the store is full. |
| Access.FilesAreWhole | file-system/file-system.c:780-793 | After every run, an evicted file comes with everything ever appended to it and with its waiting clients in their order, and each file of a bulk read with everything ever appended to it. |
| Access.LockIsTaken | file-system/file-system.c:1918-1928 | A lock is granted exactly if the file is there and nobody holds it; then the client holds it and nobody waits. |
| Access.UnlockHandsOver | file-system/file-system.c:2117-2141 | An unlock succeeds exactly for the holder; then the former head of the queue holds the lock and has left the queue, or nobody waits and nobody holds it. |
| Access.OpenedIsOpen | file-system/file-system.c:1066-1114 | After a successful open of a new or an existing file the client has opened it, and holds its lock if it asked for it. |
| Access.OnlyHolderRemoves | file-system/file-system.c:2474-2510 | A remove succeeds exactly for the holder of the lock; then the file is gone and its queue is the answer, and otherwise nothing changes. |
| Replacement.AppendEvictsLeast | file-system/file-system.c:1617-1686 | An append that passes its checks succeeds; the files it evicts are the shortest run from the back of the list, without its target, that makes room; they are returned last evicted first; every other file and the order of the list stay as they are, but for the target at the front under LRU; old total plus content is new total plus evicted bytes. |
| Replacement.FailedAppendChangesNothing | file-system/file-system.c:1617-1686 | An append either succeeds or leaves the store exactly as it was, and it never fails because an eviction failed. |
| Failures.FailureChanges | file-system/file-system.c:1756-1930 | An operation that fails leaves the store exactly as it was if and only if it is none of: an open, read, lock, unlock or close of a file that is not in front under LRU; a lock or unlock of a file with a write permission; a refused lock of a client that did not wait yet. |
| Failures.RefusedUnlockSpoilsWrite | file-system/file-system.c:2100-2115 | After a client has created and locked a file, the refused unlock of another client changes the store, and a write that would have succeeded is refused. |
| Replacement.RunNewest | file-system/file-system.c:647-711 | With ghost time stamps the list is, after every run, strictly newest first: by creation under FIFO, by last use under LRU, also after an eviction that took out two files and put one back, and after bulk reads. |
| Replacement.ExecNewest | file-system/file-system.c:856-868 | Each operation keeps the list newest first when exactly the files it renews get new stamps: a created file, and under LRU each file that was found, read or appended to, whether the operation then succeeded or not. |
| Replacement.VictimIsOldest | file-system/file-system.c:647-711 | The victim is older than every file in the list except the protected one. |
| Replacement.VictimsAreOldest | file-system/file-system.c:870-882 | In every run, each file that an open or an append evicts is older than every file that stays, except the one appended to. |
| History.DataIsWhatWasAppended | file-system/file-system.c:1629-1677 | After every run the data of each file is the concatenation of the contents successfully appended to its path since it was last created. |
| History.WriteIsFirst | file-system/file-system.c:1624-1677 | A write that succeeds was made by the holder of the lock on an empty file, leaves exactly its content there, and takes the permission away. |
| History.WriteNeedsLock | file-system/file-system.c:1624-1640 | A write can only succeed for the client that holds the lock of a still empty file. |
| History.WriteOncePerLife | file-system/file-system.c:957-964 | Between two successful writes to a path the file was created anew: at most one write in the life of a file. |
| History.FilesAreAccountedFor | file-system/file-system.c:762-771 | After every run, files created = files in the store + files removed + runs of the replacement algorithm. |
| History.MarksAreHighest | file-system/file-system.c:71-74 | After every run the two high-water marks are the most bytes and the most files that the store held at any moment. |
| History.ReadNReadsTheFirst | file-system/file-system.c:348-517 | A bulk read returns the first min(N, readable) files in list order that no other client has locked, all of them for N <= 0, and changes no file; under LRU the read files come first afterwards and both groups keep their order. |
| Locks.LockProtectsFile | file-system/file-system.c:1617-1640 | While another client holds the lock of a file, no operation of a client changes its data or its holder. |
| Locks.LockPreventsRemoval | file-system/file-system.c:2474-2510 | And none makes it disappear, except an open or an append through the replacement algorithm. |
| Locks.LockHidesFile | file-system/file-system.c:1299-1320 | And no read, single or bulk, returns it. |
| Locks.OneFileQueue | file-system/file-system.c:1874-1928 | Whatever one operation does to a file, a handoff gives the lock to the head of its queue, and a waiting client that is not the one that departs either gets the lock from the first place or waits in a place that did not grow, and that shrank with a handoff. |
| Locks.WaiterMovesUp | file-system/file-system.c:2100-2142 | Over every run in which the file stays and the client does not depart, a client at place k has held the lock or waits at a place brought forward by every handoff. |
| Locks.WaiterIsServed | file-system/file-system.c:2100-2142 | So after k + 1 handoffs it has held the lock. |
| Locks.EvictClientErases | file-system/file-system.c:237-282 | The departure of a client takes it out of every file, gives each lock it held to the first waiter, changes nothing else, and answers with exactly the clients that gained a lock, once per lock. |
| Locks.UnlockNeverSaysNotLocked | file-system/file-system.c:2106-2115 | An unlock answers "locked" exactly when the file is there and the client does not hold it; it never answers "not locked". |
| FileStore.FileSystem.Evict | file-system/file-system.c:635-793 | The code that takes out the last file, or the last two and puts one back, has the victim, the new list, index and counters of the specification, and reports failure exactly when there is no victim. |
| FileStore.FileSystem.OpenFile | file-system/file-system.c:798-1170 | Updating list, index, counters and file in place, open has exactly the effect and the answer of the specification, in every error case too. |
| FileStore.FileSystem.ReadFile | file-system/file-system.c:1180-1390 | The same for read. |
| FileStore.FileSystem.ReadNFiles | file-system/file-system.c:1402-1480 | The same for the bulk read, whose loop visits the list and then moves the read files to the front. |
| FileStore.FileSystem.AppendToFile | file-system/file-system.c:1497-1750 | The same for append and write, whose loop evicts while the content does not fit. |
| FileStore.FileSystem.LockFile | file-system/file-system.c:1756-1970 | The same for lock. |
| FileStore.FileSystem.UnlockFile | file-system/file-system.c:1980-2190 | The same for unlock. |
| FileStore.FileSystem.CloseFile | file-system/file-system.c:2195-2380 | The same for close. |
| FileStore.FileSystem.RemoveFile | file-system/file-system.c:2386-2525 | The same for remove. |
| FileStore.FileSystem.EvictClient | file-system/file-system.c:2532-2590 | The same for the departure of a client, whose loop visits every file. |
| FileStore.File.Lock | file-system/file-system.c:1874-1928 | The fields of the file after a lock request, and its answer: the permission is cleared first; then the lock is taken, the client queued, or refused. |
| FileStore.File.Unlock | file-system/file-system.c:2100-2142 | The same for an unlock request. |
| ProtocolSafety.NextKeeps | file-system/file-system.c:997-1158 | Every step of every thread, a new call and a wake-up without a signal keep the invariant of the interleaved program: who has which mutex, what the counters, `waitset` and `go` mean, and that every thread finds the files its code goes on to. |
| Exclusion.WriterIsAlone | file-system/file-system.c:1020-1061 | In every reachable state a thread that writes in a file is the only one inside, and its counters say one writer and no reader. |
| Exclusion.CountersCount | file-system/file-system.c:1261-1297 | In every reachable state `activeReaders` is the number of readers inside and `activeWriters` that of writers, at most one, and one of the two is zero. |
| Exclusion.WaitsExactly | file-system/file-system.c:1263-1275 | In every reachable state a reader at the wait loop goes to sleep exactly if a thread writes in the file, any other visitor exactly if a thread is inside: readers share a file. |
| Exclusion.ReadersRead | file-system/file-system.c:1277-1282 | A thread that only reads a file visits it as a reader. |
| Exclusion.WorksWithoutOverall | file-system/file-system.c:1014-1024 | An operation on one file waits for the file and works in it without the overall mutex. |
| Exclusion.OneWaiter | file-system/file-system.c:997-1042 | At most one thread waits on the `go` of a file, and it owns `ordering`: so one `signal` is enough. |
| Exclusion.NoLostWakeup | file-system/file-system.c:1364-1386 | A thread asleep on `go` whose guard is open has been released, or the thread that has the mutex of the file is at its signal. |
| Exclusion.SignalledGoesOn | file-system/file-system.c:1025-1033 | A thread released by a signal finds the way free when it tests the guard again. |
| Exclusion.OneOwner | file-system/file-system.c:821-833 | At most one thread executes code under the overall mutex, and it is the one that holds it. |
| Exclusion.NoUseAfterFree | file-system/file-system.c:713-779 | A thread never visits or is inside a file that has been freed. |
| Exclusion.FreedAlone | file-system/file-system.c:2425-2510 | When a step frees a file, by an eviction or a remove, one thread under the overall mutex does it and no other thread visits the file, waits for it or is inside. |
| Linearizability.AnswersAreSequential | file-system/file-system.c:821-1158 | In every interleaved run, the answer an operation got is the one it gets when the operations run one at a time in the order in which they took the overall mutex. |
| Linearizability.StoreIsSequential | file-system/file-system.c:1527-1729 | When no operation is under way, the store is the one that sequential run leaves, although the effect on one file takes place after the overall mutex was released. |
| Linearizability.BehaviourAgrees | file-system/file-system.c:1202-1386 | At every moment of every run: the store with the pending effects of all files done, in the order of their `ordering`, is the sequential one; the operation under the overall mutex, run on from here, ends in it with the sequential answer; and so do the answers still to come. |
| Progress.OrderRespectsTime | file-system/file-system.c:821-833 | The order only grows at its end and an answer once given stays: an operation that was answered before another one was called comes before it. |
| Progress.StoreIsSound | file-system/file-system.c:58-75 | Whenever nobody has the overall mutex, the store with its pending effects done satisfies the whole sequential invariant, and the file counter and limit hold of the store as it is. |
| Progress.NoDeadlock | file-system/file-system.c:199-310 | In every reachable state in which an operation is under way some thread can make a step, without help from a wake-up that was not signalled, although departures decrement without signalling and an append evicts files while it is a writer of another. |
| Progress.StepsUseWorkUp | file-system/file-system.c:1575-1729 | Every step of a thread strictly decreases the work left. |
| Progress.OperationsEnd | file-system/file-system.c:1575-1729 | A stretch of a run without new calls and unsignalled wake-ups has at most that many steps, and when no thread can make one, all operations have returned. |
| Waiting.WaitersConserved | file-system/file-system.c:1880-1915 | Every operation but a departure moves waiting clients between the queues and its answer and loses or invents none: waiting before + joined = waiting after + handed over, for every kind of client. |
| Waiting.EvictClientConserves | file-system/file-system.c:237-282 | A departure takes the clients it hands over out of the queues; if the departing client itself does not wait, nobody else leaves them. |
| Server.ActMoves | server/server.c:449-1092 | Every step of the main thread and of a worker moves a descriptor from one place to another; only accept and close change how many places it has. |
| Descriptors.RunKeeps | server/server.c:1324-1474 | Over every run, whatever sends fail: each open connection is in exactly one of the select set, the queue, the hands of one worker, the pipe, one lock queue and the lost ones; the counter of clients is exact up to the -1 messages under way; every id in a file belongs to an open connection not about to be closed; and select is asked about the whole set. |
| Descriptors.DescriptorsConserved | server/server.c:204-236 | For every run from the start: exactly the open connections are in one of the five places, once, if and only if no failing send to a woken client left others behind it untold. |
| Descriptors.ConservedWhileSendsSucceed | server/server.c:195-237 | In particular exactly the open connections are in one place after every run from the start in which each send to a woken client succeeds. |
| Descriptors.ExecMentions | file-system/file-system.c:1880-1915 | An operation writes no id into a file except that of the client that asked, and a departure takes the id out of all files. |
| Descriptors.WaiterWaitsOnce | server/server.c:937-966 | A waiting client waits for exactly one file, and is neither watched, queued, served nor lost. |
| Descriptors.ScanIsComplete | server/server.c:1341-1432 | Although `fd_num` is decremented during the scan, no ready descriptor is passed over. |
| Descriptors.MainGoesOn | server/server.c:1324-1432 | The main thread can go on while it scans, while a message is in the pipe, and whenever a watched client or the listening socket can be read; it never reads an empty pipe, and every ready descriptor it visits is in its set. |
| Descriptors.MessageGetsBack | server/server.c:1386-1407 | When select returns while messages are in the pipe, the scan that follows takes the first one, whatever the workers do meanwhile, and a client handed back in it is watched again. |
| Descriptors.ScanEnds | server/server.c:1341-1432 | A scan visits no more descriptors than select can handle, although accepted clients and messages raise its bound. |
| Descriptors.WorkerGoesOn | server/server.c:465-478 | A busy worker can always make its next step, and an idle one while the queue is not empty. |
| Descriptors.WorkersComeToRest | server/server.c:195-283 | Without new work from the main thread the workers make a bounded number of steps, whatever sends fail and however they interfere: the mutual recursion of `evictClient` and its callback ends, because each client that is told has stopped waiting. |
| Descriptors.ServedInOrder | server/server.c:1421-1447 | Over every run the workers begin the requests in the order in which the main thread forwarded them, each once. |
| LostClient.AClientIsLost | server/server.c:204-236 | A run of the server from its start, connection by connection, after which an open connection is in none of the places. |
| Departures.Departing.EvictClient | server/server.c:239-283 | The recursive code over the store ends, and store, pipe and connections become what the specification of a departure says. |
| Departures.Departing.Tell | server/server.c:195-237 | The callback hands a client that was told back through the pipe, and evicts and closes one that could not be told. |
| Departures.Departing.TellAll | list/list.c:1203-1227 | The loop over the clients stops at the first one that cannot be told. |
| Departures.GoneRun | server/server.c:195-283 | The task list of a worker is that recursion: left alone, a worker with a client to evict gets to exactly the state the recursive code gets to, and goes on with its other tasks. |
| Departures.RequestRun | server/server.c:481-1090 | A worker that serves a request and is left alone runs the operation, tells the woken clients, and hands the client back; or leaves it with the store if it waits for a lock; or closes it if it could not be answered, or if it appended and a client woken by that could not be told. |
| Departures.UnreadableRun | server/server.c:484-500 | A client whose request cannot be read is evicted from the store, announced as gone and closed. |
| Departures.QuietDeparture | server/server.c:239-283 | When the connections of its heirs work, a departure hands exactly them back to the main thread, in order, and closes nobody. |
| LinkedList.List.InsertHead | list/list.c:221-268 | The element is in front of the old contents, and all links in both directions, head, tail and length agree. |
| LinkedList.List.InsertTail | list/list.c:272-319 | The same behind the old contents. |
| LinkedList.List.ExtractHead | list/list.c:507-556 | Returns the first element and leaves the others; an empty list stays as it is. |
| LinkedList.List.ExtractTail | list/list.c:558-610 | The same for the last element. |
| LinkedList.List.SearchExtract | list/list.c:925-970 | Takes out exactly the first match, by relinking its neighbours, or nothing. |
| LinkedList.List.Reverse | list/list.c:976-1051 | The recursion over the nodes swaps both links of each; the list is reversed in both directions. |
| LinkedList.List.InsertOrdered | list/list.c:321-408 | The new element is behind the elements it does not go in front of; the recursion never runs past the tail. |
| LinkedList.InsertOrderedSorts | list/list.c:321-408 | For a comparator that orders, a sorted list stays sorted, ascending or descending, and gains exactly the new element: in front of its equals in ascending order, behind them in descending order. |
| LinkedList.SearchIsRemove1 | list/list.c:925-970 | Taking out the first match by its place is the removal that the model of the store uses. |
| HashTable.HashPjw | hashmap/icl_hash.c:39-55 | On 32-bit integers and signed characters, for every string the four high bits of the hash are clear, so it is below 2^28. |
| HashTable.PjwFolds | hashmap/icl_hash.c:50-52 | A turn moves the hash up by four bits, adds the character, and folds the four bits that went over the top into bits 4 to 7, for every hash and character. |
| HashTable.ShortKeys | hashmap/icl_hash.c:48-54 | The empty string hashes to 0, one character to itself, two to sixteen times the first plus the second. |
| HashTable.Table.LivesOnce | hashmap/icl_hash.c:107-163 | A key that is there is in exactly one place: the chain of its hash modulo the number of buckets. |
| HashTable.Table.Find | hashmap/icl_hash.c:107-122 | Returns what the map holds for the key, or nothing. |
| HashTable.Table.Insert | hashmap/icl_hash.c:135-163 | Adds a new key with its data and refuses one that is there; each key stays once, in the chain of its bucket, and the entry counter stays the size of the map. |
| HashTable.Table.Delete | hashmap/icl_hash.c:232-266 | Unlinks the entry of the key, first or further down its chain, and nothing else; fails exactly when there is none. |
| BlockingQueue.FirstInFirstOut | simple-queue/simple_queue.c:208-255 | Over every interleaving, what was taken followed by what is there is what was added. |
| BlockingQueue.AnswersAreTrue | simple-queue/simple_queue.c:609-667 | In every reachable state a thread that still has the lock and its answer has a true one: it returns the element just taken, announces the one just added, finds the queue empty, or finds it deleted. |
| BlockingQueue.StepServes | simple-queue/simple_queue.c:486-574 | A thread keeps its operation until it has an answer that fits it, or is refused because the queue is deleted. |
| BlockingQueue.NoLostSignal | simple-queue/simple_queue.c:524-567 | While a consumer sleeps unreleased and the queue is not being deleted, there are no more elements than consumers released for them, up to the one just being announced. |
| BlockingQueue.NothingAfterDeletion | simple-queue/simple_queue.c:404-421 | Once the deletion flag is set no element is added or returned, and after the broadcast nobody sleeps. |
| BlockingQueue.NoDeadlock | simple-queue/simple_queue.c:609-667 | Unless every thread is idle or waits for a signal, some thread can go on. |
| PathNormalizer.GetParents | client/api/api.c:283-352 | The four in-place passes over the buffer stay inside of it, end, and leave exactly the path that the segment stack gives. |
| PathNormalizer.PassesResolve | client/api/api.c:283-352 | What the four passes compute character by character is the segment stack of RFC 1808, section 4, step 6, in which the empty segment in front of a leading slash is one like any other. |
| Paths.ResolveLeavesNoDots | client/api/api.c:283-352 | No "." and no ".." segment is left. |
| Paths.ResolveTwice | client/api/api.c:283-352 | Resolving is idempotent. |
| Paths.ParentCancels | client/api/api.c:299-341 | Behind ordinary segments `dir/../` and `./` go and nothing else does; at the end `dir/..` and `.` leave the slash. |
| Paths.ResolveKeepsRoot | client/api/api.c:317-330 | The result equals that of the stack with a fixed root if and only if no ".." climbs above the root; otherwise it is that result without its leading slash. |
| Paths.RootIsLost | client/api/api.c:354-378 | From any working directory one level below the root, `../../name` becomes the relative path `name`. |
| Paths.AbsolutifyResolves | client/api/api.c:354-378 | An absolute argument is copied as it is; any other one becomes a path without dots, which is the properly resolved one if and only if it does not climb above the root. |
| Paths.SplitJoin | client/api/api.c:283-352 | Splitting a path that was joined from segments gives the segments back. |
| LogBuffer.Logger.Log | logger/logger.c:272-337 | After every run of calls, file followed by buffer are the entries in call order, once each; this call adds one, the message, a space and the time stamp, in whichever of the three ways; a message is logged as it is when its length is given, and cut to the given length if and only if it does not go to the file or is not longer; the text stays below the size of the buffer, that below the maximum, and below the counter that counts too much. |
| LogBuffer.Logger.Flush | logger/logger.c:374-388 | The file becomes all entries in call order and the buffer empty. |
| LogBuffer.Logger.Delete | logger/logger.c:172-184 | At the end the file is all entries in call order. |
| LogBuffer.LogTooLong | logger/logger.c:286-291 | A message of 80981 characters with the length 80980 is logged whole by a new logger. |

## Left out

- Assumptions: client ids are nonzero, because 0 stands for nobody; both limits are positive; sizes do not
  overflow; allocation and pthread calls succeed; arguments are not NULL.
- In the interleaved program a call with invalid arguments (bad flags, empty content) is not made: the code
  returns before it touches the store. The move to the front under LRU, done under the overall mutex, is one step
  with the test that precedes it.
- A wake-up without a signal may happen at any time in all safety results. `Progress.OperationsEnd` excludes it,
  since such wake-ups could go on for ever.
- Deadlock among clients through logical locks (each waits for the file the other one has locked): the code does
  not prevent it, so nothing is claimed.
- The server takes a store operation as one step. The argument for that is `Linearizability`; a theorem that
  composes the interleaved store with the server is not part of this model. Nothing is claimed once
  a signal has arrived (`signal != 0`), because a ready listening socket then falls into the branch for clients.
  The pipe is unbounded and its reads and writes succeed; a request is read as a whole or not at all.
- The choice of the replacement policy from the configuration, whose two string tests are inverted: the policy is
  an argument.
- The list of `simple-queue/simple_queue.c` is a sequence; the same relinking is proved for `list/list.c`. The
  dictionary of queues, and what the deletion does after its broadcast, are not part of this model.
- `FileStore.FileSystem` keeps its list and its index as a sequence and a map. That `LinkedList.List` and
  `HashTable.Table` implement these is proved for each operation, but the three classes are not put together.
- `List_insertOrdered` with an order other than 0 or 1, which runs past the tail; the higher-order list functions;
  `icl_hash_update_insert`, which counts a replaced entry twice and which the store never calls.
- Truncation of a path to PATH_MAX.
- Logger: failures of the file, double rounding of the growth factor, and the clock: a time stamp is any text
  shorter than 26 characters.
- Message formats, option and configuration parsing, socket setup, signals and shutdown.
