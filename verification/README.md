# Object lifetime and tracking in the kernel driver

A Dafny model of the KSystemInformer kernel driver's object-lifetime machinery, and of the algorithms
beside it that carry arithmetic, ownership or protocol state, with proofs of what they are for.
`dafny verify dfyconfig.toml` checks all of it.

| module | models |
|---|---|
| `SlotWord` | the 64-bit word of an object slot: address, exclusive bit, three-bit shared count |
| `AtomicRef` | slots, objects and threads as a step machine, generic in how a slot word is represented |
| `AtomicRefLock` | the machine with the word's fields spelled out: exclusion, conservation of references, the asserts |
| `AtomicRefBits` | the machine on machine words, one step per load, compare-exchange and store, refining `AtomicRefLock` |
| `AtomicRefCalls` | what a caller of the reference functions gets, over whole runs on machine words, and that an undisturbed call returns |
| `AtomicRefRegister` | atomic registers of owned references, which `AtomicRefLock` and so `AtomicRefBits` refine |
| `DeferDelete` | the list of objects awaiting deletion and the work item that empties it |
| `CidShape` | the three-level table as a shape: where leaves are, how it grows, what a racing lookup reads |
| `CidTable` | the table as a class whose blocks are overwritten in place: lookup, expansion, enumeration, deletion |
| `CidTracking` | process and thread contexts, their links and their reference counts, as a class over that table |
| `HashRegions` | which bytes chunked hashing feeds, for any ordered regions, chunk size and file length |
| `HashFile` | the hashing context: regions from the image headers, chunk loop, clipping in the buffer |
| `EaList` | the extended-attribute list of digests, byte for byte, written and read |
| `HashCache` | the digest cache guarded by an oplock, with an environment that writes the file |
| `MessageQueue` | asynchronous messages between senders, queue threads and stop |
| `ReplySelection` | the synchronous send over the client list |
| `Apc`, `BackTrace` | the four ways an APC ends, and the back trace object shared with one |
| `FileNameCache`, `FileOperations` | the file name cache under races, and the pre/post operation pair that feeds and reaps it |
| `DebugPrint` | debug print slots, DPCs and the flush |
| `ValueNames` | the multi-string of value names and the key name join |
| `Basics`, `Arithmetic`, `Runs`, `Tally` | small shared parts: options, division facts, induction over runs and over runs with the moves that made them, weighted sums over a sequence |

Code that one thread runs to its end is written as methods over in-place state, proved against a
specification function. Code whose point is that others run in between is a machine of atomic steps: a `State`,
a `Step` with `Enabled` and `After` (or `Post`), and theorems over every run. Where a theorem speaks of who did
what, it is about a run together with the moves that made it (`Runs.IsTrace`); every run has such moves
(`Runs.TraceOf`). Reference counting is done the
same way everywhere: `Tally.Total` adds up, over the threads or places that could own a reference, how many
they own, and the invariant equates the stored count with that sum.

In three places the code does less than one might expect. The exact condition under which it does meet the
expectation is proved, with a counterexample for the rest:

- Chunked authenticode hashing feeds exactly the regions' bytes if and only if no region with bytes of its own
  starts where a chunk ends (`HashRegions.FedAreRegionBytes`, `HashRegions.BoundaryExample`): at that boundary
  the comparisons find an end but no start, and the start falls back to the chunk's own. When the regions cannot
  be worked out the failure is not reported, and an authenticode hash is fed nothing (`HashFile.Context.HashMapped`).
- A digest returned with the oplock held to the end is right if and only if it was not in the cache when the call
  loaded it, or the writes between that load and the oplock's grant left the content as it was
  (`HashCache.LoadToGrantWindow`, with `WriteInWindowIsMissed` and the concrete `StaleExample`). That window is the
  only one: outside it a write breaks the oplock. What is cached is always current (`HashCache.CacheIsCurrent`).
- The comment above the synchronous send speaks of the reply of the last client; the code keeps the first
  usable reply and gives later clients copies. The model follows the code (`ReplySelection.SendMessage`).

## Assumptions

- Interlocked operations, sections under one lock and single pointer stores are sequentially consistent steps.
- 64-bit layout; addresses identify objects; `PointerCount` does not overflow.
- Allocation yields zeroed memory that is not otherwise in use, or fails. One allocation address is not handed
  out twice in `CidTable` and `CidTracking`; `AtomicRef` does reuse addresses.
- KQUEUE rundown hands the remaining entries over as a ring and wakes every waiter; waiting for a rundown
  protection ends when no holder is left, and acquiring it fails from then on; KPH_RUNDOWN, the RW-lock and the
  `KphMsg` primitives do what their names say. Their sources, and `KphImageNtHeader`'s, are not part of this model.
  The memory region check is modelled as `KSystemInformer/include/kph.h:295-306` defines it: not reversed, and
  inside the given bounds.
- Callers own the references they duplicate, store or give up, and send a message with the function for the pool
  it was allocated from. One process at most is System.
- A write to the file breaks a granted oplock and purges the kernel extended attributes; an attribute query
  returns the names asked for in order, with an empty value for those that are absent.
- A queued APC leaves its queue in exactly one way. Unregistering the debug print callback waits for callbacks
  that are running. The close of a file object is its last operation and is alone in flight.
- One tracking call is one step; enumeration, rundown and deletion of the CID table run while nothing expands
  it.
- A hash is a function of the bytes fed. Names are whole UTF-16 units. Timeouts and failures can happen at any
  time the code allows for them.

## Model

| member | source | states |
|---|---|---|
| SlotWord.UnpackInjective | KSystemInformer/kphobject.c:15-28 | two slot words with the same address, exclusive bit and shared count are the same word, so a compare-exchange on bits is one on meanings |
| SlotWord.SharedGuard | KSystemInformer/kphobject.c:291-319 | the shared acquire's test refuses exactly a held exclusive bit or a full shared count |
| SlotWord.IncrementShared | KSystemInformer/kphobject.c:291-319 | under that test, adding one raises the count by one and carries into nothing |
| SlotWord.DecrementShared | KSystemInformer/kphobject.c:326-338 | with a holder counted, subtracting one borrows from nothing, and the assert after it holds |
| SlotWord.SetExclusive | KSystemInformer/kphobject.c:347-381 | setting the flag changes the exclusive bit only |
| SlotWord.DrainGuard | KSystemInformer/kphobject.c:347-381 | the drain loop ends exactly when no reader is counted |
| SlotWord.ResetExclusive | KSystemInformer/kphobject.c:388-398 | clearing the flag changes the exclusive bit only |
| SlotWord.StoreWord | KSystemInformer/kphobject.c:442-469 | storing an object with the flag means that object, exclusively locked, no readers |
| AtomicRefLock.StepKeepsInv | KSystemInformer/kphobject.c:184-530 | every step of any thread keeps: shared count = live readers (at most 7), exclusive bit = the one writer, PointerCount = slots naming the object + references threads own, one deleter exactly at count 0 |
| AtomicRefLock.InvExclusion | KSystemInformer/kphobject.c:288-398 | a writer past its drain loop is alone in its slot; never two writers, never more than seven readers |
| AtomicRefLock.InvConserves | KSystemInformer/kphobject.c:135-228 | each object's count is slots plus owned references, the live total is right, allocation and deletion alternate, and a freed object is named nowhere |
| AtomicRefLock.InvAsserts | KSystemInformer/kphobject.c:326-433 | the asserts on the lock word and on the counts hold, and no thread inside a call is ever stuck on a freed object |
| AtomicRefLock.SafeInEveryRun | KSystemInformer/kphobject.c:135-518 | all of that in every run of any number of threads, slots and objects, from the empty state |
| AtomicRefBits.StepRefines | KSystemInformer/kphobject.c:291-469 | each step on machine words is the same step on (object, exclusive, shared) |
| AtomicRefBits.MoveRefines | KSystemInformer/kphobject.c:291-469 | the same with names: every move of a thread on words is that thread's move of the same name on decoded slots |
| AtomicRefBits.WordsDecodeInEveryRun | KSystemInformer/kphobject.c:288-469 | in every run the word's bits are the readers in its section, its one writer, and NULL or a live object |
| AtomicRefBits.RunRefines | KSystemInformer/kphobject.c:288-518 | every run on words, read through the decoding, is a run of the lock machine |
| AtomicRefRegister.StepSimulates | KSystemInformer/kphobject.c:413-518 | each step is a step of atomic registers or one inside a call that nobody can see |
| AtomicRefRegister.MoveSimulates | KSystemInformer/kphobject.c:413-518 | the same with names: a reference, assign, move, creation, duplication or release is the register operation of that name on that slot and object, owning what it needs; a reference takes effect at the read under the shared lock, a store at the store |
| AtomicRefRegister.RunLinearizes | KSystemInformer/kphobject.c:413-518 | every run of the lock machine is a run of atomic registers of owned references |
| AtomicRefRegister.BitRunLinearizes | KSystemInformer/kphobject.c:288-518 | end to end, every run on machine words is a run of atomic registers |
| AtomicRefRegister.CountTracksRegisters | KSystemInformer/kphobject.c:184-228 | PointerCount is the registers' references, less the readers that have read but not yet counted |
| AtomicRefRegister.FreedIsUnreferenced | KSystemInformer/kphobject.c:43-58 | at register level too, an object that was deleted or never created is referenced by no slot, owner or reader under way |
| AtomicRefCalls.ReferenceReturns | KSystemInformer/kphobject.c:413-433 | in every run on words, a reference call changes no slot and returns owning exactly one reference more, to the object its slot held at one moment in between, or none if that was NULL |
| AtomicRefCalls.StoreExchanges | KSystemInformer/kphobject.c:442-518 | in every run on words, an assign or move, NULL included, exchanges its object into its slot exactly once and changes nothing else; a move hands its reference over for the previous object's, an assign keeps its own and gives the previous object's up |
| AtomicRefCalls.AloneAdvances | KSystemInformer/kphobject.c:291-469 | from every reachable state a thread alone in its slot has a move, and is nearer its return after it |
| AtomicRefCalls.AloneReturns | KSystemInformer/kphobject.c:291-469 | so a call nobody disturbs returns within ten moves |
| AtomicRefCalls.CallsAreOpen | KSystemInformer/kphobject.c:413-518 | an idle thread can make every call on references it owns |
| DeferDelete.StepKeepsInv | KSystemInformer/kphobject.c:66-80 | list non-empty exactly when one of pusher about to queue, queued item, worker dequeued but not flushed exists, never two; every object handed over is deleted, listed or in one thread's hands; the driver object's references match |
| DeferDelete.SafeInEveryRun | KSystemInformer/kphobject.c:235-253 | in every run the work item is never queued while queued, and no object is deleted more often than handed over |
| DeferDelete.StepReducesWork | KSystemInformer/kphobject.c:530-552 | every step but a new hand-over lowers a measure of the work left |
| DeferDelete.NothingIsLost | KSystemInformer/kphobject.c:530-552 | while work is left some such step is enabled; when none is left exactly what was handed over is deleted, once each |
| CidShape.IndexAgrees | KSystemInformer/cid_table.c:22-35 | the division chains of lookup and expansion compute one id decomposition, and their range checks are checks on it |
| CidShape.LookupByIndex | KSystemInformer/cid_table.c:245-322 | the lookup as written is the lookup by stretch, part and offset, whatever shapes its three reads see |
| CidShape.LookupIsFind | KSystemInformer/cid_table.c:245-322 | on one shape the lookup is the flat array of entries and every index is in bounds |
| CidShape.LookupLinearizes | KSystemInformer/cid_table.c:245-322 | a lookup whose three reads see three successive moments answers as the flat array did at one moment between them |
| CidShape.RacingReadsInBounds | KSystemInformer/cid_table.c:245-322 | every read of a lookup racing with growth is inside a block allocated at that moment, and the entry it returns is inside an allocated leaf |
| CidShape.GrowKeeps | KSystemInformer/cid_table.c:333-487 | every single store of an expansion or migration keeps the table well formed and every earlier entry |
| CidShape.HistoryGrows | KSystemInformer/cid_table.c:333-487 | so over any number of stores |
| CidShape.EntryIsForever | KSystemInformer/cid_table.c:499-515 | once an id has an entry, every later moment has that entry |
| CidShape.EntriesDistinct | KSystemInformer/cid_table.c:499-515 | two ids never have the same entry, at any two moments |
| CidTable.Table.constructor | KSystemInformer/cid_table.c:125-140 | a new table is a well-formed empty leaf, and the only block allocated |
| CidTable.Table.Create | KSystemInformer/cid_table.c:125-140 | no table if the first leaf cannot be had, otherwise a well-formed empty one |
| CidTable.Table.LookupEntry | KSystemInformer/cid_table.c:245-322 | for every CID at every level, the flat array's entry of the id whose four CIDs it is among |
| CidTable.EntriesByCid | KSystemInformer/cid_table.c:35 | at any two moments of a table's life, two CIDs have the same entry exactly if they differ in their low two bits only |
| CidTable.Table.PublishLevel1 | KSystemInformer/cid_table.c:333-487 | the store of a level 1 root leaves a valid table that extends the old one |
| CidTable.Table.PublishLevel2 | KSystemInformer/cid_table.c:333-487 | likewise the store of a level 2 root |
| CidTable.Table.NewLeaf | KSystemInformer/cid_table.c:333-487 | allocates and stores a leaf, or finds no memory and changes nothing; no block leaks and no entry moves |
| CidTable.Table.StoreLeaf | KSystemInformer/cid_table.c:333-487 | likewise the store of a leaf, which is then at its place and zeroed |
| CidTable.Table.StoreDir | KSystemInformer/cid_table.c:333-487 | likewise the store of a level 1 block under a level 2 root |
| CidTable.Table.ExpandTableFor | KSystemInformer/cid_table.c:333-487 | returns the CID's entry, which all later lookups find; NULL exactly from 4 times the table's limit on or when an allocation failed; on every path, failures after a published promotion included, the table is valid, only grew, and leaks no block |
| CidTable.Table.GetEntry | KSystemInformer/cid_table.c:499-515 | lookup followed by expansion: the CID's entry; NULL exactly for a CID out of range or after a failed allocation, and earlier entries stand |
| CidTable.Table.InvokeCallback | KSystemInformer/cid_table.c:529-569 | shows a referenced object to the callback, passes its answer on and gives the reference back; without a callback empties the entry, gives up the entry's reference and never stops |
| CidTable.Table.WalkEntry | KSystemInformer/cid_table.c:580-711 | one entry of the walk: everything up to and including it has been visited in order, once |
| CidTable.Table.WalkLeaf | KSystemInformer/cid_table.c:580-711 | likewise one leaf |
| CidTable.Table.WalkLevel1 | KSystemInformer/cid_table.c:580-711 | likewise one level 1 block |
| CidTable.Table.Enumerate | KSystemInformer/cid_table.c:580-753 | shows every object once in table order and stops right after the first TRUE; a rundown never stops early and empties every entry; each object seen has one reference given up, the one taken to show it or the entry's |
| CidTable.EnumeratesByIds | KSystemInformer/cid_table.c:580-753 | in terms of ids: each occupied id's object is shown exactly once, ids ascending |
| CidTable.Table.Delete | KSystemInformer/cid_table.c:148-233 | frees every block of the table exactly once, which is every block ever allocated |
| CidTracking.CountMoves | KSystemInformer/kphobject.c:184-228 | a caller's reference or dereference keeps the whole tracking invariant and hands a context over exactly at count 0 |
| CidTracking.StoredKeeps | KSystemInformer/cid_tracking.c:1392-1438 | storing a context in its entry with the table's reference keeps the invariant: every count is table + list + InitialThread + back pointers + callers |
| CidTracking.RemovedKeeps | KSystemInformer/cid_tracking.c:1453-1480 | moving a context out of its entry to the caller keeps it |
| CidTracking.BackPointedKeeps | KSystemInformer/cid_tracking.c:1060-1084 | giving a process reference to a thread's back pointer keeps it |
| CidTracking.ListedKeeps | KSystemInformer/cid_tracking.c:1060-1084 | appending a thread to its process's list with one reference keeps it: NumberOfThreads is the list's length and InThreadList is membership |
| CidTracking.InitialSetKeeps | KSystemInformer/cid_tracking.c:1060-1084 | setting InitialThread with one reference keeps it |
| CidTracking.UnlistedKeeps | KSystemInformer/cid_tracking.c:1284-1315 | taking a thread off the list into the caller's hands keeps it |
| CidTracking.WithoutKeepsOrder | KSystemInformer/cid_tracking.c:1911-1914 | taking one thread off the list leaves the others in their order |
| CidTracking.InitialClearedKeeps | KSystemInformer/cid_tracking.c:1284-1315 | clearing InitialThread into the caller's hands keeps it |
| CidTracking.ForgottenKeeps | KSystemInformer/cid_tracking.c:666-713 | deleting a context at count 0, returning its back pointer's reference, keeps it |
| CidTracking.DeletedIsUnlinked | KSystemInformer/cid_tracking.c:666-713 | the delete procedures' asserts: a deleted process has no thread left, a deleted thread is in no list |
| CidTracking.LiveIsTracked | KSystemInformer/cid_tracking.c:1835-1929 | despite the reference cycle, once deferred deletions ran an unreferenced context is still tracked or has a tracked thread: untracking a process and its threads in any order frees all of them |
| CidTracking.AllGone | KSystemInformer/cid_tracking.c:1352-1375 | with nothing tracked and nothing held outside, every context ever made has been deleted |
| CidTracking.Tracker.Reference | KSystemInformer/kphobject.c:184-193 | the count and the callers' references grow by one, nothing else changes |
| CidTracking.Tracker.Dereference | KSystemInformer/kphobject.c:235-253 | they shrink by one; the last one hands the context to the deletion worker |
| CidTracking.Tracker.LookupContext | KSystemInformer/cid_tracking.c:57-81 | the tracked context of the id, referenced, if it is of the expected kind; otherwise NULL and nothing changed |
| CidTracking.Tracker.UntrackContext | KSystemInformer/cid_tracking.c:1453-1480 | takes a context of the expected kind out of its entry; one of the other kind stays tracked |
| CidTracking.Tracker.CreateProcess | KSystemInformer/cid_tracking.c:391-655 | a new process context with no thread, held by the caller; the System process's is held once more |
| CidTracking.Tracker.CreateThread | KSystemInformer/cid_tracking.c:1003-1097 | a new thread context linked to its process if that is tracked, the APC's reference included; every other link as before |
| CidTracking.Tracker.AttachThread | KSystemInformer/cid_tracking.c:1060-1084 | sets the back pointer, takes InitialThread if there is none and appends to the list, and changes no other link |
| CidTracking.Tracker.AssignEntry | KSystemInformer/cid_tracking.c:1392-1438 | the entry holds the new context; no link changes |
| CidTracking.Tracker.TrackProcess | KSystemInformer/cid_tracking.c:1811-1823 | the context already tracked, NULL for a thread's id, or a new one, NULL exactly out of range or when something could not be allocated; table, contexts, links, references, the System pointer and the next address in each case |
| CidTracking.Tracker.TrackThread | KSystemInformer/cid_tracking.c:1867-1879 | likewise for threads, linked to their process |
| CidTracking.Tracker.UnlinkThreads | KSystemInformer/cid_tracking.c:1284-1315 | empties the process's list and InitialThread; every listed thread is off the list, no other link changes |
| CidTracking.Tracker.UntrackProcess | KSystemInformer/cid_tracking.c:1835-1854 | untracks and unlinks exactly the process of that id; afterwards every untracked thread is in no list |
| CidTracking.Tracker.UntrackThread | KSystemInformer/cid_tracking.c:1891-1929 | untracks exactly the thread of that id and takes it off its process's list and InitialThread |
| CidTracking.Tracker.UnlinkThread | KSystemInformer/cid_tracking.c:1905-1926 | takes the thread off list and InitialThread, and nothing else |
| CidTracking.Tracker.DeleteNext | KSystemInformer/cid_tracking.c:666-713 | deletes one context awaiting deletion with its asserts; the links of all others stay |
| CidTracking.Tracker.Drain | KSystemInformer/kphobject.c:530-552 | deletes until nothing awaits deletion, and ends |
| CidTracking.Tracker.CleanupEntry | KSystemInformer/cid_tracking.c:1327-1346 | one entry of the rundown: its object is moved out, a process unlinked, the entry's reference given up |
| CidTracking.Tracker.Cleanup | KSystemInformer/cid_tracking.c:1352-1375 | from any state between calls: nothing is tracked any more and the System pointer's reference is gone, no outside reference changed, and every thread not referenced outside is at count 0 |
| CidTracking.Tracker.Unload | KSystemInformer/cid_tracking.c:1352-1375 | cleanup and the deferred deletions together: if nothing outside holds a reference, exactly the contexts ever made are deleted, once each |
| CidTracking.Perform | KSystemInformer/cid_tracking.c:1811-1929 | any track, untrack, lookup, duplicate, give-up or deletion by an owner keeps everything unload needs, and what it returns is exactly what the owner's references grow by |
| CidTracking.Life | KSystemInformer/cid_tracking.c:1352-1375 | from load through any sequence of calls to unload: no context is left if nothing is owned outside, and once what was owned is given up every context ever made has been deleted, once |
| HashRegions.ChunkExtends | KSystemInformer/hash.c:545-641 | a chunk at whose end no region starts feeds exactly the regions' bytes in that chunk |
| HashRegions.ChunkLength | KSystemInformer/hash.c:545-641 | for every chunk, what it feeds is the regions' bytes in it plus one whole chunk for each region that starts at its end |
| HashRegions.FileExtends | KSystemInformer/hash.c:1628-1659 | over all chunks from any chunk boundary on, without a region on a boundary, exactly the rest of the regions' bytes is fed |
| HashRegions.FileLength | KSystemInformer/hash.c:1628-1659 | never too few bytes are fed, and too many as soon as a region ahead starts on a chunk boundary |
| HashRegions.FedAreRegionBytes | KSystemInformer/hash.c:545-641 | for every file, chunk size and ordered regions: fed bytes = regions' bytes if and only if no non-empty region starts where a chunk ends |
| HashRegions.BoundaryExample | KSystemInformer/hash.c:598-621 | a region on the boundary: six bytes are fed where two should be |
| HashFile.ClipRegion | KSystemInformer/hash.c:583-625 | the pointer comparisons compute the part of the region in the chunk that the specification feeds |
| HashFile.AuthenticodeByName | KSystemInformer/hash.c:675-680 | the algorithms fed by regions are exactly those whose digests are cached under a name ending in "A" |
| HashFile.RegionsSkipExactly | KSystemInformer/hash.c:1336-1358 | on an acceptable image the regions are ordered, disjoint, and leave out exactly the checksum, the security entry and the certificates, by their offsets in PE32 and PE32+ headers |
| HashFile.VerifiedIsAcceptable | KSystemInformer/hash.c:1336-1386 | the checks on the regions accept exactly the images whose excluded parts are in order and inside the view |
| HashFile.CoveredNext | KSystemInformer/hash.c:1336-1358 | byte by byte, ordered regions hold exactly the bytes at their addresses |
| HashFile.CoveredIsKept | KSystemInformer/hash.c:1336-1358 | up to every address the regions' bytes are the file's bytes with the excluded ones left out, in order |
| HashFile.AuthenticodeFed | KSystemInformer/hash.c:1205-1386 | the authenticode hash of an acceptable image is fed the file without the excluded parts if and only if no region starts on a chunk boundary |
| HashFile.Context.UpdateHash | KSystemInformer/hash.c:545-641 | feeds one algorithm the whole chunk, or for authenticode the regions' part of it as specified, and no other algorithm |
| HashFile.Context.FeedRegion | KSystemInformer/hash.c:570-637 | one region's turn in that |
| HashFile.Context.UpdateHashes | KSystemInformer/hash.c:657-698 | every algorithm being hashed gets its bytes, the others nothing |
| HashFile.Context.HashChunk | KSystemInformer/hash.c:1628-1659 | one turn of the chunk loop takes what was fed from one file position to the next |
| HashFile.Context.HashView | KSystemInformer/hash.c:1628-1659 | after the loop each plain algorithm was fed the whole file, authenticode what `FileFeeds` says |
| HashFile.Context.SetRegions | KSystemInformer/hash.c:1240-1358 | the slots hold the regions between the excluded parts, for each header case |
| HashFile.Context.VerifyRegions | KSystemInformer/hash.c:1359-1386 | succeeds exactly when every used region lies in the view and is not reversed |
| HashFile.Context.InitializeAuthenticode | KSystemInformer/hash.c:1205-1386 | succeeds exactly on acceptable images; on failure no region is left |
| HashFile.Context.HashMapped | KSystemInformer/hash.c:1553-1689 | whole operation, per algorithm by its attribute's name: plain hashes get the whole file; authenticode hashes get the file without its excluded parts if and only if no region starts on a chunk boundary, and nothing at all, without an error, if the image is not acceptable; it fails exactly if a memory access or the provider did |
| EaList.NamesDistinct | KSystemInformer/hash.c:18-55 | no two algorithms share an attribute name |
| EaList.AlgorithmTable | KSystemInformer/hash.c:104-115 | each algorithm's attribute name and digest size |
| EaList.MaxLengthFits | KSystemInformer/hash.c:18-55 | the aligned records of all algorithms fit the buffer bound |
| EaList.WriteRecord | KSystemInformer/hash.c:1449-1474 | writes name, value and a Next field of the aligned length, and nothing before the record |
| EaList.AppendRecord | KSystemInformer/hash.c:1449-1474 | one more record continues the chain |
| EaList.CloseList | KSystemInformer/hash.c:1476-1486 | zeroing the last Next field leaves a list as the file system takes it, within the bytes written |
| EaList.ChainCloses | KSystemInformer/hash.c:1476-1486 | the same as a statement about the bytes, for a chain of any length |
| EaList.FinishOne | KSystemInformer/hash.c:1397-1474 | one algorithm: its digest is in its slot and, when caching, appended to the chain |
| EaList.FinishHashes | KSystemInformer/hash.c:1397-1500 | succeeds exactly if every started hash finishes; the slots hold the digests of exactly the algorithms hashed, and the bytes handed to the file system are an aligned, terminated list of just those within the bound |
| EaList.LoadRecord | KSystemInformer/hash.c:869-908 | a record fills the slot of the algorithm it names if its length is that algorithm's, and no other slot |
| EaList.LoadHashes | KSystemInformer/hash.c:815-920 | the walk ends and loads every record of any well-formed list |
| EaList.ReadBack | KSystemInformer/hash.c:815-920 | for every subset of algorithms, loading the list that was written restores exactly those digests and leaves every other slot |
| EaList.LoadQuery | KSystemInformer/hash.c:815-920 | a query's answer loads exactly what the file holds, absent attributes changing nothing |
| EaList.CacheRoundTrip | KSystemInformer/hash.c:1397-1500 | through the file: written digests come back, and every other algorithm gets what the file held before |
| HashCache.StepKeepsInv | KSystemInformer/hash.c:711-1190 | every step of calls, oplock and writers keeps cached digests current, and what a call has read under an unbroken oplock equal to the content |
| HashCache.CacheIsCurrent | KSystemInformer/hash.c:1105-1152 | in every run every cached digest is the digest of the present content |
| HashCache.ReturnedDigests | KSystemInformer/hash.c:1510-1689 | what any call returns: computed digests are those of the content at the end, which is the one hashing began at; all are if and only if none was loaded or hashing began at the content loaded from |
| HashCache.LoadToGrantWindow | KSystemInformer/hash.c:937-1190 | for every run and every call whose oplock is held to the end: nobody wrote since the grant, and a digest is right if and only if it was not in the cache at the load or the writes between load and grant left the content as it was |
| HashCache.QuietWindowIsSafe | KSystemInformer/hash.c:1105-1190 | without a write between load and grant, an oplock held to the end guards every digest returned |
| HashCache.WriteInWindowIsMissed | KSystemInformer/hash.c:937-1190 | if the last write between load and grant changed the content, every cached digest returned is that of the old content, with the oplock held throughout |
| HashCache.QuietCallIsSafe | KSystemInformer/hash.c:1553-1689 | without a write from load to finish every digest is right, oplock or not |
| HashCache.HeldExactly | KSystemInformer/hash.c:1105-1152 | a granted oplock is held to the end exactly if nobody writes in between |
| HashCache.DigestsAreCached | KSystemInformer/hash.c:1397-1500 | a call that hashed under a granted oplock leaves every digest it was asked for in the cache, right, for as long as nobody writes |
| HashCache.HashesOnlyMissing | KSystemInformer/hash.c:711-805 | a call hashes exactly if a digest it was asked for was not in the cache, and takes the others from there |
| HashCache.StaleExample | KSystemInformer/hash.c:937-1190 | a run with no oplock break in which a loaded digest is that of overwritten content |
| MessageQueue.StepKeepsInv | KSystemInformer/comms.c:1068-1110 | every step keeps each message in exactly one place (sender, queue, worker, ring or freed), each item freeing to its own pool, and nothing under way once the rundown is complete |
| MessageQueue.FreedOnceByItsPool | KSystemInformer/comms.c:268-282 | in every run no message is freed twice, while it is in use, or to a pool it did not come from, given that senders call the function for their message's pool |
| MessageQueue.NothingEnqueuedAfterRundown | KSystemInformer/comms.c:1589-1664 | from the rundown's completion on no step enqueues, and after the queue was abandoned it is empty |
| MessageQueue.StoppedIsEmpty | KSystemInformer/comms.c:1589-1664 | after stop the queue is empty, its threads are gone, and every message is freed once unless a sender has it in hand and is about to be refused |
| MessageQueue.FreedAfterItsFate | KSystemInformer/comms.c:1068-1110 | in every run a freed message was refused by the rundown, dropped for want of an item, or sent: one of these, once |
| MessageQueue.HistoryIsTrue | KSystemInformer/comms.c:1328-1390 | refused, dropped and sent are what the moves of the run did: a refusal only after stop began, a drop only without an item, a send only by a queue thread or the drain |
| MessageQueue.TakenInOrder | KSystemInformer/comms.c:1328-1390 | in every run items are taken in the order inserted, and sent in that order by a single queue thread |
| MessageQueue.StoppedDelivered | KSystemInformer/comms.c:1589-1664 | when stop has returned everything inserted was taken in order and sent once |
| MessageQueue.NobodyInside | KSystemInformer/comms.c:1732-1751 | in every run, once stop has seen the rundown complete no thread is inside a synchronous or asynchronous send |
| MessageQueue.SyncIsAdmitted | KSystemInformer/comms.c:1732-1751 | a synchronous send is let in exactly while stop has not begun |
| MessageQueue.AcceptedIsSent | KSystemInformer/comms.c:1068-1110 | in every run a message whose item was allocated is sent exactly once by the time stop has returned |
| MessageQueue.StepReducesWork | KSystemInformer/comms.c:1589-1664 | every step but a new message or synchronous send brings the end of stop nearer |
| MessageQueue.StopProceeds | KSystemInformer/comms.c:1589-1664 | until stop has returned, such a step is possible |
| ReplySelection.SendMessage | KSystemInformer/comms.c:1132-1320 | the reply is that of the earliest eligible client other than the caller that was reached and gave a handled one, else Unhandled; which clients are sent to and which get copies, each once, in order |
| ReplySelection.SendToClient | KSystemInformer/comms.c:1159-1315 | one turn of the loop extends that by one client |
| ReplySelection.ReplyNext | KSystemInformer/comms.c:1159-1315 | a client decides the reply exactly if none before it did |
| ReplySelection.LaterClientsIgnored | KSystemInformer/comms.c:1132-1320 | once answered, no further clients in the list change the reply |
| Apc.StepKeepsInv | KSystemInformer/ksidll.c:61-222 | every kernel, normal, rundown or removal step keeps each APC's callback trace one of the allowed ones and the driver's references one per APC on its way |
| Apc.CompleteCleansOnce | KSystemInformer/ksidll.c:61-145 | each complete trace has exactly one cleanup |
| Apc.CleanedExactlyOnce | KSystemInformer/ksidll.c:174-222 | in every run a finished insertion ran its cleanup once, after everything else; one under way not yet |
| Apc.DriverReferencesBalance | KSystemInformer/ksidll.c:174-222 | in every run the driver object has one reference per APC on its way, and none once all are finished |
| Apc.CleanupTellsWay | KSystemInformer/ksidll.c:61-222 | in every run the cleanup of an inserted APC is told how it left the queue, after exactly what that way calls for: the kernel routine, the very normal routine it left in a kernel mode APC, or nothing |
| Apc.ModeStays | KSystemInformer/ksidll.c:147-172 | the mode an APC is initialized with stays until it is initialized again |
| Apc.NeverStuck | KSystemInformer/ksidll.c:61-222 | every APC can be carried on to its cleanup and return |
| BackTrace.StepKeepsInv | KSystemInformer/back_trace.c:476-604 | every step of caller and APC, a removal that fails with the APC still queued included, keeps: the object's count is the caller's plus the APC's reference, and the event follows the frames |
| BackTrace.ObjectOutlivesBoth | KSystemInformer/back_trace.c:476-604 | while either party can touch it the object is alive; afterwards freed exactly once, on success, timeout and failed insertion; success returns the finished frames |
| BackTrace.FramesAreFinal | KSystemInformer/back_trace.c:272-334 | after the event the frames never change |
| BackTrace.NoEventAfterRundown | KSystemInformer/back_trace.c:314-361 | after a rundown or a removal no wait ever succeeds |
| BackTrace.ReturnsOutcome | KSystemInformer/back_trace.c:476-604 | in every run the caller is told success, timeout or failure exactly if the wait was satisfied, timed out, or the object or the APC could not be had |
| BackTrace.SignalIsSeen | KSystemInformer/back_trace.c:314-334 | in every run the event is set exactly from the kernel routine's signal on, and a caller still waiting then succeeds |
| BackTrace.SuccessReturnsFrames | KSystemInformer/back_trace.c:272-300 | a successful caller has exactly the frames of the one frame walk there was |
| BackTrace.NeverStuck | KSystemInformer/back_trace.c:476-604 | caller and APC each have a next step until they are done |
| FileNameCache.StepKeepsInv | KSystemInformer/informer_filenc.c:257-401 | every step keeps: one entry per file object, each count is list + holders, every entry a thread references is for its own file object, an entry in the list belongs to an open or closing file |
| FileNameCache.CacheIsSound | KSystemInformer/informer_filenc.c:257-401 | that in every run, and each entry is freed at most once, exactly when nothing references it |
| FileNameCache.LookUpOnMap | KSystemInformer/informer_filenc.c:279-306 | a lookup goes on with its own file object's cached entry if there is one, and otherwise to create one |
| FileNameCache.HeldForOwnFile | KSystemInformer/informer_filenc.c:257-401 | in every run every entry a thread holds, created or goes on with after losing a race is for its own file object |
| FileNameCache.AskedIsNamed | KSystemInformer/informer_filenc.c:257-401 | in every run an operation that asks for its file's name ends up holding an entry for that file, whoever created it; only a failed creation leaves it without |
| FileNameCache.OperationsProceed | KSystemInformer/informer_filenc.c:257-401 | an operation under way always has a next step |
| FileNameCache.ClosedIsReaped | KSystemInformer/informer_filenc.c:782-822 | in every run, once a close has been through its post operation no entry for its file object is left until it is opened anew |
| FileNameCache.CleanedUpIsEmpty | KSystemInformer/informer_filenc.c:869-890 | with the list emptied and nothing in flight, every entry ever created has been freed |
| FileNameCache.StepOnMap | KSystemInformer/informer_filenc.c:257-401 | the cache is a partial map: insert is insert-if-absent with winner and loser sharing the winner's value, reap removes, all else leaves the map alone |
| FileNameCache.InsertOnMap | KSystemInformer/informer_filenc.c:346-401 | an insert that finds no rival maps its file to its own entry, and no other file changes |
| FileNameCache.ReapOnMap | KSystemInformer/informer_filenc.c:782-822 | a reap unmaps exactly the closed file |
| FileOperations.Filter.FreeContext | KSystemInformer/informer_fileop.c:1580-1612 | gives back the context, its message if it has one, and each name reference it holds |
| FileOperations.Filter.CreateContext | KSystemInformer/informer_fileop.c:1759-1887 | a context with a message and its names, or nothing kept |
| FileOperations.Filter.PreOpSend | KSystemInformer/informer_fileop.c:1903-2033 | the pre operation message is queued or freed, never kept, and queued unless it could not be had; only a creation awaiting a reply is failed, and it is when a client wants so |
| FileOperations.Filter.Gather | KSystemInformer/informer_fileop.c:2139-2311 | sends the pre operation message if asked to and creates the context; the post operation is asked for exactly when a context is handed over, with exactly the name references it needs; with every allocation met, all of that happens exactly when wanted |
| FileOperations.Filter.PreOp | KSystemInformer/informer_fileop.c:2139-2312 | every name looked up is released, every message sent or freed; a close always asks for the post operation, with or without a context; other operations only with one |
| FileOperations.Filter.PostOp | KSystemInformer/informer_fileop.c:1626-1741 | a close is reaped on every path, draining and missing context included; the context is consumed, its message sent or freed |
| FileOperations.Filter.Run | KSystemInformer/informer_fileop.c:1626-2312 | a whole operation leaks nothing, and reaps its file object once if it is a close and never otherwise; unless something could not be had, exactly the wanted messages are queued, and a creation is undone exactly if the client asked for it |
| DebugPrint.Slots.Accept | KSystemInformer/informer_debug.c:141-193 | a non-empty line takes the next slot, as much of its text as fits and with its component, level, time and thread, if there is one; otherwise nothing changes |
| DebugPrint.Slots.Flush | KSystemInformer/informer_debug.c:39-95 | sends each line in slot order for which a message could be had, and empties the slots |
| DebugPrint.DeliveredNext | KSystemInformer/informer_debug.c:39-95 | one more line in the slots is one more message at the end, if it can be had |
| DebugPrint.StepKeepsInv | KSystemInformer/informer_debug.c:110-193 | every step keeps: accepted = taken + in the slots, in order, and filled slots have a flush ahead |
| DebugPrint.NoLineStranded | KSystemInformer/informer_debug.c:39-193 | in every run each accepted line is taken once, in order, or in the slots with a callback, a queued DPC or a waiting DPC ahead; the slots never overflow; after stop all are taken |
| DebugPrint.AcceptedIsPrinted | KSystemInformer/informer_debug.c:141-193 | in every run a line is lost only if it is empty or printed while all slots are filled; all others are accepted, in order |
| DebugPrint.FlushTakesAll | KSystemInformer/informer_debug.c:39-95 | a flush takes everything accepted so far |
| DebugPrint.FlushIsReachable | KSystemInformer/informer_debug.c:110-131 | what is ahead is always enabled, and a flush takes everything |
| ValueNames.WideString.Append | KSystemInformer/informer_registry.c:1080-1170 | appends the whole string exactly when it fits, otherwise changes nothing |
| ValueNames.WideString.AppendChar | KSystemInformer/informer_registry.c:1080-1170 | likewise one character |
| ValueNames.Measure | KSystemInformer/informer_registry.c:1008-1075 | the first pass computes exactly the encoding's length, failing exactly on a 32-bit overflow |
| ValueNames.Fill | KSystemInformer/informer_registry.c:1080-1170 | the second pass yields the encoding exactly when it fits; on every path Length stays within MaximumLength |
| ValueNames.CopyMultipleValueNames | KSystemInformer/informer_registry.c:1008-1179 | exactly when the list is added: both passes readable, memory at hand, the encodings within their limits even if the names change in between, and room in the message; unchanged names fill the buffer exactly |
| ValueNames.DecodeEncode | KSystemInformer/informer_registry.c:1008-1179 | decoding the encoding is the list of names as shown |
| ValueNames.DecodeReturnsNames | KSystemInformer/informer_registry.c:1008-1179 | decoding the NUL-separated list returns each name in its place and whole, the empty ones as "(Default)" |
| ValueNames.MakeObjectName | KSystemInformer/informer_registry.c:639-740 | the joined name exactly when the key's name can be looked up, the result fits a counted string and memory can be had |
| ValueNames.JunctionSeparated | KSystemInformer/informer_registry.c:639-740 | for all parts, empty ones included: root and relative name are kept whole, and one separator is added exactly between two parts that have none there |

## Left out

- The protocols with several parties (object slots, deferred deletion, message queue, APCs, back trace, name cache, digest cache, debug print DPCs) are step machines on values, because a method cannot be interrupted between its statements; update in place is not captured there.
- The 32-bit layout of the slot word.
- The query list of attribute names that `KphpInitHashingInfra` prepares; the query's answer is a contract of the file system.
- Object statistics other than the number of live objects.
- Two first-time trackings of the same CID at once, which the driver leaves to the order of OS notifications.
- The window between the last oplock check and the attribute write, `KSystemInformer/hash.c:1480-1489`, which is one step.
- CidTable.Table.Enumerate: callbacks are functions of what they were shown, and do not change the table themselves.
- CidTracking.Tracker.Cleanup: a process's count reaches 0 only when its threads' deferred deletions return their back pointers; `Unload` and `Life` say so for the whole.
- CidTracking.Tracker.DeleteNext: the order in which deferred deletions are worked off is arbitrary, the list's own order being part of `DeferDelete`.
- ReplySelection.SendMessage: what a client does with a message is an input; timeouts are one of its outcomes.
- Walking the frames and sizing the back trace object, `KSystemInformer/back_trace.c:514-516`.
- The stream-handle context path to a file name, and the tunnelling decision.
- Parameter-copying switch tables, handle and query wrappers, ALPC names, the LSA cache, image coherency and pool tags.
- Memory ordering weaker than sequential consistency, IRQL, paging, and liveness beyond the work measure of `DeferDelete` and the enabled steps of `DebugPrint`.
