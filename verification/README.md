# Verified models of the systems programs

Dafny models, with proofs, of the programs of this repository that keep hard promises about shared files, memory and
processes: a database of two byte files used by many processes, a reference-counted table with two levels of locks, a
semaphore protocol that survives process exits, an asynchronous copy loop, a print spooler that survives crashes, a
merge behind a barrier, a connection server, a descriptor-passing protocol, an in-memory stream and a pipeline builder.

`dafny verify dfyconfig.toml` checks everything.

## What is modelled

**The database** (`apue.3e/db/db.c`). `Decimal` and `IndexRecord` are the text the library prints and reads: fields of
fixed width, records with separators. `Links` is list surgery on pointer fields inside a file. `DbStore` describes the
two files as records at offsets, with the lists through them: records tile the index file after the hash table, extents
tile the data file, every record is on one chain or on the free list, live keys are unique and on the chain they hash to.
`DbBytes` says when two byte strings are such files. `Database` is the library itself: a class over the two byte strings
whose methods do the reads and writes in the order of the C code, proved against a finite map. The real hash function,
table size, field widths and limits are used, and any key can be stored. Where the C code calls `err_dump` or `err_quit`
the methods return `ok == false`; `Blocked`, `StoreReturns` and `Returns` say exactly when.

`DbProcesses` lets any number of processes run `db_fetch`, `db_store` and `db_delete` with every lock, unlock, read and
write a step of its own; `DbInvariant` is what every reachable state satisfies, `DbFrame` to `DbTheorem` prove that each
step keeps it, `DbByteRuns` moves to the bytes and to whole runs, and `DbProgress` bounds the steps of a call. The proof
keeps a map object beside the files. A call takes effect on the map at one of its own steps: a fetch or a miss where it
reads, a delete where it blanks the data, a store where it writes the head of the chain or overwrites the data. A process
that meets a record it cannot read, or a limit between two of its writes, ends, and its locks are released; the others go
on with what it has left. A store that ends so after it has deleted the old record of its key counts as a deletion of that
key. (Two parts of a process are for the proof only: the number of records a walk has passed, and whether a store has
already deleted the old record of its key.)

**The reference-counted table** (`apue.3e/threads/mutex2.c`, `mutex3.c`). `FooSpec` is the table with each operation in
one piece. `FooOneLock` is the version with one lock, a class over explicit memory (addresses, `malloc`, `free`), proved
to do exactly those operations. `FooThreads` is the version with two levels of locks: each thread a program counter, each
access to shared memory a step. `FooInvariant` to `FooTheorem` prove that it refines the table in one piece, that counts
are right, that nothing is used after it is freed, and that no set of threads deadlocks. Callers owe what the C code
relies on: they hold and release only objects they have a reference to.

**The counted semaphore** (`apue.3e/lib/semaph.c`). `SemSet` models `semop` on an array of operations as one step that is
done whole or not at all, `SEM_UNDO`, `SETVAL`, removal and process exit as POSIX.1-2008 (XSI) has them, and the library's
functions as steps between which a process may exit at any time. (Whether a set has been initialised is a part of it that
no step reads.) `SemProof` and `SemTheorem` prove the protocol for up to BIGCOUNT users as long as no `sem_open` slips in
between the reading of the count in `sem_close` and the removal, in particular when nobody calls `sem_open`, and show that
neither condition can be dropped. `SemValue` is about the semaphore itself.

**The asynchronous copy** (`apue.3e/advio/rot13c2.c`). `CopyLoop`: what `aio_error` reports is left to chance, except that
`aio_suspend` returns only when something it was given has completed.

**The print spooler** (`apue.3e/printer/printd.c`). `PrintQueue` is the doubly linked list. `Spooler` is the daemon: client
threads, the printer thread, the queueing of what is found at start-up, the job file, crashes with restarts; `SpoolQueue`
ties its queue to the list, and `SpoolTold` reads off the moves of a run what clients sent. `SpoolProof` and `SpoolTheorem`
prove what it guarantees as long as every restart begins with a number above those of the accepted jobs still to be printed;
`SpoolRestart` shows that a restart that does not can lose a job, and exactly which ones.

**Smaller cores.** `SortMerge` and `Barrier` (`apue.3e/threads/barrier.c`); `ClientTable`, `PollLoop` and `SelectLoop`
(`apue.3e/ipc2/opend`); `FdProtocol` (`apue.3e/lib/recvfd.c`, `sendfd.c`, `senderr.c`, `writen.c`); `MemStream`
(`apue.3e/exercises/fmemopen.c`); `Pipeline` (`week08Lab2/3pipe.c`). `Common` holds what several models use.

## Where the code does less than it seems to

- A key with a `:` can be stored, with return code 0. Nothing can read its record back: from then on every call on a key
  of that chain ends the program that makes it (`IndexRecord.SeparatorInKey`, `Database.NewestBlocks`,
  `Database.Db.Store`).
- `_db_dodelete` prints from the index buffer into itself (`apue.3e/db/db.c:577` called from line 509). The model takes
  the intended result.
- `sem_open` takes no lock, and can get a set that a closing process is about to remove (`SemTheorem.SlipHappens`,
  `SemTheorem.SlipLosesSet`). With more than BIGCOUNT users a set is initialised while it is held
  (`SemTheorem.TooMany`).
- On a stream that cannot be read, the null byte that follows a write can overwrite data; `MemStream.TerminatorSpoils`
  says exactly when, `MemStream.SpoilHappens` shows it.
- The pipeline waits for each command before it starts the next, so it stops for ever exactly when a command that is not
  the last writes more than a pipe holds (`Pipeline.Shell.ExecutePipeline`, `Pipeline.OverflowHappens`).
- In the poll loop, packing moves entries of `pollfd` but not of `client`, so a request can be logged and handled under the
  uid of another client (`PollLoop.WrongUidHappens`). `PollLoop.EventUid` says for each event, and `PollLoop.UidsExactly`
  for a whole scan, exactly when the uid is right.
- The print daemon's number for the next job is in a file that is written only when a job is taken up. After a restart it
  can be the number of an accepted job, whose data the next client truncates (`SpoolRestart.JobIsLost`,
  `SpoolRestart.RestartExact`).
- A store that replaces data by data of another length deletes first and checks its limits later: where it gives up, the
  key is gone (`Database.Db.Regrow`).

## Model

| member | source | states |
|---|---|---|
| Decimal.AtolRightJustified | apue.3e/db/db.c:323-334 | A number printed right-justified in a field reads back as itself. |
| Decimal.FieldWidth | apue.3e/db/db.c:618-631 | A field keeps its width exactly when the number has no more digits than that; this is what PTR_MAX stands for. |
| IndexRecord.PtrFieldReads | apue.3e/db/db.c:330-333 | Every legal 7-character pointer field reads back as the pointer. |
| IndexRecord.LenFieldReads | apue.3e/db/db.c:381-384 | Every legal 4-character length field reads back as the length. |
| IndexRecord.TextRoundTrip | apue.3e/db/db.c:577-583 | Reading what was printed for an index record gives back its key, data offset and data length, and passes every sanity check, for any key without a separator. |
| IndexRecord.SeparatorInKey | apue.3e/db/db.c:396-408 | A record whose key contains the separator never reads back: the program ends. With the round trip: it reads back if and only if the key has no separator. |
| IndexRecord.PrintedRecord | apue.3e/db/db.c:575-583 | What a pointer, a length and a record look like in the file. |
| Links.PushFront | apue.3e/db/db.c:683-687 | Writing a record's offset into the root puts exactly that record in front of the list. |
| Links.Unlink | apue.3e/db/db.c:516-522 | Copying a record's pointer into the field before it takes exactly that record off the list. |
| DbStore.RewriteOk | apue.3e/db/db.c:504-509 | Rewriting a record with one of the same length and data extent keeps both files tiled. |
| DbStore.AppendRecOk | apue.3e/db/db.c:590-606 | Appending a record keeps the index file tiled. |
| DbStore.AppendDatOk | apue.3e/db/db.c:542-555 | Appending data keeps the extents disjoint and the data file tiled. |
| DbStore.HashAdds | apue.3e/db/db.c:306-317 | The hash of a key with one more character: that character, signed, times its place is added. |
| DbBytes.ReadHdrBytes | apue.3e/db/db.c:356-384 | On well-formed files the first read of _db_readidx brings the pointer and the length that are there, and the checks on them pass. |
| DbBytes.ReadTextBytes | apue.3e/db/db.c:386-417 | The second brings the record, and every check passes, exactly when its key has no separator. |
| DbBytes.WritePtrBytes | apue.3e/db/db.c:618-631 | Writing a pointer field over the bytes changes that field and nothing else the lists or records depend on. |
| DbBytes.WriteIdxBytes | apue.3e/db/db.c:567-612 | Rewriting a record at its own length, or appending one, changes that record and nothing else in the bytes. |
| DbBytes.WriteDatBytes | apue.3e/db/db.c:531-560 | Overwriting an extent at its own length, or appending one, changes that extent and nothing else. |
| DbBytes.EmptyListsOk | apue.3e/db/db.c:146-160 | A new database satisfies every well-formedness condition and holds no key. |
| Database.HashTable | apue.3e/db/db.c:152-156 | The loop builds the index file of an empty database: free-list pointer and hash table, all 0. |
| Database.StoreLaws | apue.3e/db/db.c:637-746 | The codes of a store: 1 exactly for an insertion of a key that is there, -1 exactly for a bad flag or a replacement of one that is not; 0 otherwise, and only then is anything changed: the data of that key. |
| Database.FetchedAfter | apue.3e/db/db.c:233-746 | A store that returns 0 is fetched back, a deleted key is not there, and no other call makes a difference to a fetch. |
| Database.CodesMean | apue.3e/db/db.c:233-746 | Every return code in terms of what a fetch would have found. |
| Database.DeleteSurgery | apue.3e/db/db.c:486-522 | The three pointer writes of a deletion take the record off its chain and put it on the free list, and keep every list well formed. |
| Database.DeletedContents | apue.3e/db/db.c:470-514 | A deletion removes its key from the map the files hold and touches no other key. |
| Database.LinkSurgery | apue.3e/db/db.c:673-697 | Linking in a new or reused record puts its key on the right chain and keeps every list well formed. |
| Database.LinkedContents | apue.3e/db/db.c:673-697 | Linking in a record adds exactly its key, with its data. |
| Database.ReplacedContents | apue.3e/db/db.c:732-737 | Overwriting the data of a record changes its key's data and no other. |
| Database.NewestBlocks | apue.3e/db/db.c:264-300 | A record whose key has a separator, at the head of a chain, is met by every walk on that chain. |
| Database.Db.Create | apue.3e/db/db.c:134-166 | A new database is the empty map, and its counters agree with its records. |
| Database.Db.ReadPtr | apue.3e/db/db.c:323-334 | Returns the pointer the file has at that place. |
| Database.Db.ReadIdx | apue.3e/db/db.c:343-418 | Fills the handle with the record at the offset and leaves the file position after it; ends the program exactly when the key of the record has a separator. |
| Database.Db.ReadDat | apue.3e/db/db.c:424-435 | Returns the data of the current record. |
| Database.Db.WritePtr | apue.3e/db/db.c:618-631 | Succeeds exactly when the pointer is at most PTR_MAX, and then changes that field alone. |
| Database.Db.WriteDat | apue.3e/db/db.c:531-560 | Overwrites or appends one extent and changes nothing else. |
| Database.Db.WriteIdx | apue.3e/db/db.c:567-612 | Succeeds exactly when the record's length is legal; a rewrite always does, and keeps the file's length. |
| Database.Db.Find | apue.3e/db/db.c:259-301 | The walk ends; the program ends in it exactly when a record it cannot read comes before the key; otherwise it finds the key if and only if it is in the map, and leaves the handle on its record with the field before it. |
| Database.Db.Fetch | apue.3e/db/db.c:233-253 | Returns the data of the key in the map, or nothing when it is not there; changes no file; fails to return exactly when the key is blocked. |
| Database.Db.DoDelete | apue.3e/db/db.c:463-525 | The current record leaves its chain for the free list, key and data blanked; the map loses its key and nothing else. |
| Database.Db.Delete | apue.3e/db/db.c:440-456 | 0 and the key is gone, or -1 and nothing has changed, each counted as what it is; the counters stay in balance; fails to return exactly when the key is blocked. |
| Database.Db.FindFree | apue.3e/db/db.c:752-805 | Finds a free record if and only if one has exactly these sizes, and takes it off the free list. |
| Database.Db.Append | apue.3e/db/db.c:676-688 | Adds the key with its data at the ends of the files; gives up exactly when the record's length or offset is out of range, and then the files are well formed with the contents they had. |
| Database.Db.Reuse | apue.3e/db/db.c:689-699 | The record taken off the free list becomes the key's; the files do not grow. |
| Database.Db.Insert | apue.3e/db/db.c:672-699 | A new key is in the map with its data, in a reused record if one fits and an appended one if not; where it gives up, nothing is in the map that was not. |
| Database.Db.Replace | apue.3e/db/db.c:700-737 | A key that is there has the new data; gives up exactly when the data have another length and the new record is out of range, and then the files are well formed and the key is gone. |
| Database.Db.Regrow | apue.3e/db/db.c:707-731 | Data of another length: the key has the new data, the old record is free; where it gives up, the files are well formed and the key is gone. |
| Database.Db.StoreNew | apue.3e/db/db.c:663-699 | Under a key that is not there a replacement is refused and anything else stored. |
| Database.Db.Store | apue.3e/db/db.c:637-746 | For every key, data and flag: return code and new map are those of a finite map: 1, -1 and 0 exactly where StoreLaws says; it fails to return exactly when a limit is hit or the key is blocked, and then the files are unchanged, or well formed with the map less the key; every return is counted as what it is, and the counters stay in balance with the index, live and free records; after a key with a separator has been stored every key of its chain is blocked. |
| Database.Db.Rewind | apue.3e/db/db.c:812-827 | The file position is the first record. |
| Database.Db.NextRec | apue.3e/db/db.c:835-875 | Returns the next record in file order whose key is not all blanks, with its data, and counts it, or nothing at the end; ends the program exactly when that key has a separator. |
| Database.ListingHas | apue.3e/db/db.c:849-868 | The records still to come include every one from here on whose key is not all blanks. |
| Database.ListingOnly | apue.3e/db/db.c:849-868 | They include no others, and no key twice. |
| Database.FullListing | apue.3e/db/db.c:807-875 | From the first record on they are the whole map, keys of blanks aside, each key once. |
| Database.Db.ReadAll | apue.3e/db/db.c:807-875 | Rewinding and reading to the end returns every key not all blanks exactly once with its data, in file order, and the map is unchanged; it can be done exactly when no key has a separator. |
| Database.Call | apue.3e/db/db.c:233-746 | One call answers as the map does and keeps the counters in balance; it fails to return exactly where Returns says. |
| Database.RoomToStore | apue.3e/db/db.c:575-581 | With legal key and data lengths and files that have not outgrown their fields, a store meets no limit. |
| Database.RunOn | apue.3e/db/db.c:233-746 | Any sequence of calls on any well-formed database returns what its map returns, up to the call that ends the program if one does, and keeps the counters in balance with the records. |
| Database.Run | apue.3e/db/db.c:233-746 | Any sequence of calls on a new database returns what a finite map returns, and the counters are then the numbers of records appended, live and free; within the limits and without separators in stored keys it always finishes; only a store can stop it before one has been stored. |
| DbProcesses.RegionsDisjoint | apue.3e/db/db.c:590-593 | The byte ranges locked in the index file are disjoint. |
| DbFrame.Exclusion | apue.3e/db/db.c:277-283 | Two processes never write the same chain, the free list or the end of a file at the same time. |
| DbFrame.LocksKept | apue.3e/db/db.c:483-484 | Locks stay exclusive, and are held exactly at the places of the code between lock and unlock. |
| DbReads.UnlinkerElsewhere | apue.3e/db/db.c:511-522 | A process halfway through a deletion is about to write on its own chain only, out of reach of all others. |
| DbReads.ChainPtrTrue | apue.3e/db/db.c:285-296 | A process that holds a chain reads true pointers along it, whatever others are halfway through. |
| DbReads.FreePtrTrue | apue.3e/db/db.c:764-776 | A process that holds the free list reads true pointers along it. |
| DbReads.MissFacts | apue.3e/db/db.c:297-300 | A walk that reaches the end of a chain has passed all of it: the key is not in the map. |
| DbReads.FoundInMap | apue.3e/db/db.c:290-293 | The record a walk finds is the one the map has for the key, with its data. |
| DbDeletion.BlankDatStep | apue.3e/db/db.c:486-489 | Blanking the data is where a deletion takes effect, and it keeps the invariant. |
| DbPointerWrites.UnlinkRecStep | apue.3e/db/db.c:516-522 | The last pointer write of a deletion keeps the invariant and changes the map no more. |
| DbPointerWrites.LinkHeadStep | apue.3e/db/db.c:683-697 | Writing the head of the chain is where a store takes effect, and it keeps the invariant. |
| DbWrites.OverDataStep | apue.3e/db/db.c:732-737 | Overwriting the data is where a replacement of equal length takes effect, and it keeps the invariant. |
| DbTheorem.StepKeeps | apue.3e/db/db.c:233-805 | Every step of every process keeps the invariant and moves the map object by at most one call; no step changes a list that another process relies on. |
| DbTheorem.QuitStep | apue.3e/db/db.c:575-624 | A process that a limit ends between its writes leaves the invariant; its call has had no effect, or that of a deletion. |
| DbTheorem.InitialOk | apue.3e/db/db.c:134-166 | A new database satisfies the invariant. |
| DbByteRuns.BytesFollow | apue.3e/db/db.c:323-631 | A step over the bytes is a step over the records they show; a read fails exactly at a record of the chain whose key has a separator, and then the process is about to end with a message. |
| DbByteRuns.RunInvariant | apue.3e/db/db.c:233-805 | In every reachable state of any interleaving the bytes show records and lists that satisfy the invariant. |
| DbByteRuns.ReadsSucceed | apue.3e/db/db.c:323-435 | So in every reachable state no read is short and no sanity check fires, except that on the separators, for such a key. |
| DbByteRuns.RunExplained | apue.3e/db/db.c:233-805 | Every run has a log of exactly the calls that took effect, each between its start and its return; in every state, what a call has settled on is what its entry says. |
| DbByteRuns.Linearizable | apue.3e/db/db.c:233-805 | The calls of any run that took effect, all of them and in that order, return what the empty map returns to the same calls one after the other; every returned call is among them with the result it returned, and every store that ended after deleting the old record of its key as a deletion; with nobody in a call the files hold the map they leave. FailsForCause says which calls do not return. |
| DbByteRuns.FailsForCause | apue.3e/db/db.c:233-805 | In any run a call fails only where the program ends it: a fetch or a deletion only when its walk has met a record whose key has a separator, before any with the key or as that one; a store only then, for data of a length it does not take, or at a limit. |
| DbByteRuns.EndsExactly | apue.3e/db/db.c:343-657 | The four steps that end a process, and no others. |
| DbByteRuns.ReusesWhatFits | apue.3e/db/db.c:752-805 | In every reachable state, a store that goes on to append has found no free record of its two sizes, and one that takes a record off the free list has found one. |
| DbByteRuns.ReplacesInPlace | apue.3e/db/db.c:707-737 | In every reachable state, a store that has found its key deletes the record only if its data have another length, and overwrites the data if not. |
| DbByteRuns.FetchWaitsForWriter | apue.3e/db/db.c:274-283 | A fetch waits only for a process that is changing its chain: readers do not wait for each other. |
| DbByteRuns.AllIdle | apue.3e/db/db.c:233-805 | With nobody in a call, the records on the chains are exactly the map, no key twice; a record on no list is one, out of range of pointers, that a store left when it ended. |
| DbByteRuns.NoDeadlock | apue.3e/db/db.c:259-805 | While somebody is in a call, somebody in a call can take a step. |
| DbByteRuns.LockOrder | apue.3e/db/db.c:480-523 | A process holds at most one chain, and the free list or an append region only while it holds that chain. |
| DbProgress.OwnStep | apue.3e/db/db.c:259-805 | A step of its own brings a call nearer to its end: to a later place, or along its walk. |
| DbProgress.OthersStep | apue.3e/db/db.c:259-805 | No step of another process takes it back. |
| DbProgress.CallEnds | apue.3e/db/db.c:259-805 | Whatever the others do, a call takes at most 32 steps, and four for each index record, once it is granted the locks it waits for. |
| FooSpec.LookupIsNewest | apue.3e/threads/mutex3.c:51-66 | Finding an id gives the newest live object with it, or nothing when no live object has it. |
| FooSpec.InsertOk | apue.3e/threads/mutex3.c:18-41 | An allocation keeps every live object in the one bucket of its id, newer before older. |
| FooSpec.DropOk | apue.3e/threads/mutex3.c:67-90 | So does a release, which takes the object out with its last reference. |
| FooOneLock.Foos.Alloc | apue.3e/threads/mutex3.c:18-41 | The new object is in front of its bucket with one reference; nothing else changes. |
| FooOneLock.Foos.Hold | apue.3e/threads/mutex3.c:43-49 | The object has one more reference; nothing else changes. |
| FooOneLock.Foos.Find | apue.3e/threads/mutex3.c:51-65 | Returns what the table's lookup finds, with one more reference, or NULL and no change. |
| FooOneLock.Foos.Rele | apue.3e/threads/mutex3.c:67-90 | One reference less; with the last one the object is out of its bucket and freed, and every other object stays where it was. |
| FooTheorem.StepKeeps | apue.3e/threads/mutex2.c:19-104 | Every step of every thread keeps the invariant and moves the table in one piece by at most one call. |
| FooTheorem.InitialOk | apue.3e/threads/mutex2.c:7-9 | The empty table satisfies the invariant. |
| FooTheorem.Refines | apue.3e/threads/mutex2.c:19-104 | Every run with two levels of locks is a run of the table in one piece: the same calls with the same results, the same objects with the same counts. |
| FooTheorem.CountsAndFrees | apue.3e/threads/mutex2.c:68-104 | In every reachable state f_count is the number of references, every reference is to an object in memory, no thread follows a pointer out of memory, and an object about to be freed has no other reference, is locked by nobody, is in no bucket's head and is followed by no other thread. |
| FooTheorem.Lifetime | apue.3e/threads/mutex2.c:19-104 | An object is in memory with the table's count as long as the table has it; any other object in memory is one that a thread is just making or destroying. |
| FooTheorem.HashlockFirst | apue.3e/threads/mutex2.c:74-83 | In every reachable state who holds an object's lock is in a call, holds no other and is about to take neither another nor hashlock; who holds hashlock is not about to take it again. |
| FooTheorem.HashlockForLast | apue.3e/threads/mutex2.c:74-78 | A release takes hashlock only after it has found, under the object's lock, that its reference is the last. |
| FooTheorem.NoDeadlock | apue.3e/threads/mutex2.c:33-83 | While some thread is in a call, some thread in a call can take a step. |
| FooRemoval.FreeIsSafe | apue.3e/threads/mutex2.c:96-99 | At the moment of free() nobody else has a reference to the object, uses it, holds or waits for its lock, or can find it. |
| FooProof.NoWildPointer | apue.3e/threads/mutex2.c:58-95 | Every pointer a step follows points into memory. |
| SemSet.SemOpAdds | apue.3e/lib/semaph.c:49-81 | An array of operations that is done adds up to its amounts, takes the same from the adjustments, keeps values in range, and changes nothing else. |
| SemProof.OpGuards | apue.3e/lib/semaph.c:49-71 | The lock is taken only when it is free, and the count is decremented only when it is above 0. |
| SemProof.ReadsCount | apue.3e/lib/semaph.c:130-138 | sem_create() finds the count to be 0 exactly when nobody has initialised the set. |
| SemProof.ExitStep | apue.3e/lib/semaph.c:15-24 | A process may exit at any point: the undo of its operations keeps the invariant. |
| SemProof.RemoverAlone | apue.3e/lib/semaph.c:243-249 | When a set is removed nobody holds it and nobody else is inside. |
| SemProof.StepKeeps | apue.3e/lib/semaph.c:105-253 | Every step keeps the invariant, unless a sem_open() slips in before a removal. |
| SemTheorem.Protocol | apue.3e/lib/semaph.c:105-253 | Up to BIGCOUNT users, exits at any point, no slip: member [2] is 0 or 1 and guards one process; member [1] is BIGCOUNT minus the holders once the set is initialised, and before that it is 0 and nobody holds it; no held set is removed or initialised; every holder's set exists; the count never exceeds BIGCOUNT. |
| SemTheorem.CreatorsDoNotSlip | apue.3e/lib/semaph.c:105-158 | A run in which everybody enters through sem_create() has no slip. |
| SemTheorem.CreatorsProtocol | apue.3e/lib/semaph.c:105-253 | So in every such run a held set exists, is not removed and not initialised, and its count is right. |
| SemTheorem.InsiderMoves | apue.3e/lib/semaph.c:130-160 | Whoever has the lock can take its next step, so the lock is always given back. |
| SemTheorem.NoDeadlock | apue.3e/lib/semaph.c:124-128 | A process that waits in sem_create() or sem_close() waits for a process inside, which can move. |
| SemTheorem.SlipLosesSet | apue.3e/lib/semaph.c:193-249 | Every sem_open() that comes between the reading of a full count and the removal gets a set that the closer's next step removes. |
| SemTheorem.SlipHappens | apue.3e/lib/semaph.c:188-194 | A run in which two processes get there. |
| SemTheorem.TooMany | apue.3e/lib/semaph.c:138-153 | With more than BIGCOUNT users there is a run in which a set is initialised while BIGCOUNT processes hold it: the bound is exact. |
| SemValue.SetsInitval | apue.3e/lib/semaph.c:146-148 | The first user gives the semaphore the value sem_create() was called with. |
| SemValue.SemaphoreValue | apue.3e/lib/semaph.c:105-158 | Over any run without a slip, from its initialisation on, the semaphore is the initial value plus the amounts of the sem_op() calls done on it, as long as nobody leaves with amounts to be undone. |
| SemValue.WaitsExactly | apue.3e/lib/semaph.c:262-292 | A sem_op() waits exactly as long as the semaphore would go below 0. |
| SemValue.LastRemoves | apue.3e/lib/semaph.c:239-249 | A close removes the set exactly when nobody else holds it, and otherwise gives back the lock. |
| SemValue.FailsOnlyIf | apue.3e/lib/semaph.c:105-253 | A call fails only for a bad initial value, or a sem_open() because there is no set or it has just been removed. |
| SemValue.CreateTriesAgain | apue.3e/lib/semaph.c:124-128 | sem_create() begins again when the set is removed before it has the lock. |
| CopyLoop.Translate | apue.3e/advio/rot13c2.c:25-40 | A letter of the first half of the alphabet becomes the one 13 on, one of the second half the one 13 back, and any other byte stays. |
| CopyLoop.Rot13Inverse | apue.3e/advio/rot13c2.c:25-40 | Translating twice gives the byte back. |
| CopyLoop.CopyTwice | apue.3e/advio/rot13c2.c:109-110 | Translating a translated file gives the file. |
| CopyLoop.IssueOk | apue.3e/advio/rot13c2.c:71-89 | Issuing a read keeps pending blocks disjoint, everything before off written or pending, and numop the number of busy buffers; the measure decreases. |
| CopyLoop.ReadOk | apue.3e/advio/rot13c2.c:91-117 | So does a completed read whose translated block becomes a pending write. |
| CopyLoop.WriteOk | apue.3e/advio/rot13c2.c:119-139 | So does a completed write, which makes its block of the output right and leaves the others. |
| CopyLoop.NoShortRead | apue.3e/advio/rot13c2.c:105-108 | A read is short only for the last block, so the loop never quits on one. |
| CopyLoop.AllWritten | apue.3e/advio/rot13c2.c:142-144 | With nothing pending and everything asked for, the output is the translated input. |
| CopyLoop.Copier.Turn | apue.3e/advio/rot13c2.c:69-141 | One turn of the switch keeps the state of the copy, touches only its buffer, and gets something done if its operation has completed or there is more to read. |
| CopyLoop.Copier.Scan | apue.3e/advio/rot13c2.c:69-141 | A scan gets something done when some buffer is ready. |
| CopyLoop.Copier.Suspend | apue.3e/advio/rot13c2.c:142-148 | Afterwards some pending operation has completed: its buffer is in use and done. |
| CopyLoop.Copy | apue.3e/advio/rot13c2.c:42-155 | Whatever order operations complete in, the loop ends and each byte of the output is that of the input so translated. |
| PrintQueue.JobList.GetNewJobNo | apue.3e/printer/printd.c:256-267 | The number handed out is the next one, and the following one is greater, or 1 after the largest. |
| PrintQueue.JobList.AddJob | apue.3e/printer/printd.c:275-294 | The list is the old one with the new job at its end, links and both ends included. |
| PrintQueue.JobList.ReplaceJob | apue.3e/printer/printd.c:301-313 | The list is the old one with the job in front. |
| PrintQueue.JobList.RemoveJob | apue.3e/printer/printd.c:320-331 | The list is the old one without the job, wherever it was, and the others in order. |
| PrintQueue.JobList.TakeJob | apue.3e/printer/printd.c:688-695 | The first job is taken off. |
| PrintQueue.Defer | apue.3e/printer/printd.c:832-838 | Taking a job and putting it back leaves the list exactly as it was. |
| SpoolProof.StepKeeps | apue.3e/printer/printd.c:338-840 | Every step of clients, printer thread and start-up, every failure and every crash with a fresh start keeps the invariant. |
| SpoolProof.TurnsKept | apue.3e/printer/printd.c:275-331 | Every step whatever keeps the order of jobs and loses no wake-up. |
| SpoolProof.SentKept | apue.3e/printer/printd.c:489-520 | What an accepted job consists of never changes. |
| SpoolProof.PrinterSame | apue.3e/printer/printd.c:825-831 | The printer thread removes files of a job whose printing was reported, and no others. |
| SpoolProof.CrashKeeps | apue.3e/printer/printd.c:190-214 | After a crash at any point a restart whose first number is above all accepted jobs still to be printed finds a spool directory that satisfies the invariant. |
| SpoolTold.AllTold | apue.3e/printer/printd.c:425-490 | In every run, what a client thread holds of its connection is what it has been told in it: the request of its first move, marked as plain text unless the file begins as PostScript does, and all pieces of the file so far. |
| SpoolTold.SentTold | apue.3e/printer/printd.c:425-490 | So every accepted job is one that a client asked for, with the whole file it sent. |
| SpoolTheorem.FirstComeFirstServed | apue.3e/printer/printd.c:684-840 | In every run, finished jobs, the job in hand and the queue are together exactly the jobs added, in order; with fresh starts each comes once. |
| SpoolTheorem.PrintsWhatWasSent | apue.3e/printer/printd.c:447-490 | With fresh starts, what is printed for a job is the concatenation of the pieces its client sent, under the request it sent first, PR_TEXT set unless there was no file or it begins with "%!PS". |
| SpoolTheorem.NothingIsLost | apue.3e/printer/printd.c:338-385 | With fresh starts, an accepted job not yet printed is on disk whole, as its client sent it, in every state, crashes included, and once the daemon serves it has been queued or is about to be. |
| SpoolTheorem.NoLostWakeup | apue.3e/printer/printd.c:688-692 | In every run, while the printer thread sleeps with jobs in the queue, a signal is on its way. |
| SpoolTheorem.PrintedLeavesNothing | apue.3e/printer/printd.c:825-831 | With fresh starts, a job that has been printed has no file left in the spool directory. |
| SpoolTheorem.FailedLeavesNothing | apue.3e/printer/printd.c:428-518 | As long as the daemon does not crash, every file in the spool directory is of an accepted job or of one a client thread is at work on. |
| SpoolTheorem.PrintsTheFirst | apue.3e/printer/printd.c:684-831 | A printer that works prints the first job of the queue, with the data it was accepted with, in six steps. |
| SpoolTheorem.CancelledOnlyIf | apue.3e/printer/printd.c:714-726 | A job is given up only when its file cannot be opened, or when it had been printed before a crash. |
| SpoolRestart.RestartLoses | apue.3e/printer/printd.c:195-249 | From a restart some way of going on destroys a given accepted job before it is printed if and only if the number in the job file is not above its own. |
| SpoolRestart.RestartExact | apue.3e/printer/printd.c:195-249 | So a restart keeps all accepted jobs, whatever happens after it, if and only if it is fresh, which is if and only if the number in the job file is above those of all complete request files. |
| SpoolRestart.JobIsLost | apue.3e/printer/printd.c:429-431 | A run that loses a job: two accepted, the first taken up before the second comes, a restart, and one more connection. |
| SpoolQueue.ClientAdds | apue.3e/printer/printd.c:275-294 | The list holds the queue of the daemon after a client adds its job. |
| SpoolQueue.BuildAdds | apue.3e/printer/printd.c:378-380 | So it does after the main thread adds one it has found. |
| SpoolQueue.PrinterTakes | apue.3e/printer/printd.c:688-695 | So it does after the printer thread takes the first, which is the job it then has in hand. |
| SpoolQueue.PrinterPutsBack | apue.3e/printer/printd.c:832-838 | So it does after a deferred job is put back. |
| SortMerge.Least | apue.3e/threads/barrier.c:68-74 | The inner loop finds a segment with numbers left whose next number is least. |
| SortMerge.LeastHead | apue.3e/threads/barrier.c:68-74 | The least next number of sorted segments is least of all that is left. |
| SortMerge.Given | apue.3e/threads/barrier.c:75-76 | Moving that number to the output keeps the output sorted, below what is left, and with it the same numbers. |
| SortMerge.Merge | apue.3e/threads/barrier.c:59-78 | For any number of sorted segments with values below LONG_MAX, snums ends as a sorted permutation of nums. |
| Barrier.RearrangedOnly | apue.3e/threads/barrier.c:47-47 | A thread that sorts its segment leaves every other segment and the multiset of numbers as they are. |
| Barrier.StepKeeps | apue.3e/threads/barrier.c:42-54 | The barrier counts who has come, and who has come has sorted, after every step. |
| Barrier.MergesSorted | apue.3e/threads/barrier.c:101-108 | When the main thread merges, every segment is sorted, no thread will change it, and the numbers are those of the start. |
| Barrier.MergeAfter | apue.3e/threads/barrier.c:101-108 | So after the merge the whole array is sorted. |
| ClientTable.Clients.ClientAlloc | apue.3e/ipc2/opend/client.c:5-22 | The table is the old one with NALLOC free slots. |
| ClientTable.Clients.ClientAdd | apue.3e/ipc2/opend/client.c:27-46 | The connection is in the first free slot, of a table that has grown exactly if there was none. |
| ClientTable.Clients.ClientDel | apue.3e/ipc2/opend/client.c:51-63 | The first slot with the descriptor is free; or there is none and nothing changes. |
| ClientTable.Added | apue.3e/ipc2/opend/client.c:36-39 | Filling a free slot adds exactly that descriptor. |
| ClientTable.Removed | apue.3e/ipc2/opend/client.c:57-59 | Freeing a slot removes exactly its descriptor. |
| PollLoop.DueOnce | apue.3e/ipc2/opend/loop.poll.c:68-95 | What is due in a scan: one action for each ready descriptor, the one its hang-up or read decides, and nothing for others. |
| PollLoop.DueIs | apue.3e/ipc2/opend/loop.poll.c:68-93 | Which action: a hang-up or a read of nothing closes, any other read is handled with its length. |
| PollLoop.DuePacked | apue.3e/ipc2/opend/loop.poll.c:82-89 | Packing the array neither loses nor repeats an action that is still due. |
| PollLoop.ScanDue | apue.3e/ipc2/opend/loop.poll.c:68-95 | A scan does exactly what is due, each action once, whatever packing moves on the way. |
| PollLoop.LeftFds | apue.3e/ipc2/opend/loop.poll.c:80-89 | The entries it leaves are those it does not close. |
| PollLoop.EventUid | apue.3e/ipc2/opend/loop.poll.c:76-93 | Each event of a scan has the uid of the slot at the place where its entry is then; so it is the one recorded for the connection if and only if that slot and the slot of its client have the same uid. |
| PollLoop.ClosedAligned | apue.3e/ipc2/opend/loop.poll.c:80-89 | Closing an entry keeps slots and entries aligned if and only if it is the last. |
| PollLoop.UidsExactly | apue.3e/ipc2/opend/loop.poll.c:68-95 | From aligned slots, with no two clients of the same uid, a scan handles everything under the recorded uids and leaves the slots aligned if and only if no entry but perhaps the last is closed. |
| PollLoop.WrongUidHappens | apue.3e/ipc2/opend/loop.poll.c:76-93 | Two clients of which the first hangs up while the second sends a request, which is handled under the uid of the first. |
| PollLoop.PollServer.GrowPollfd | apue.3e/ipc2/opend/loop.poll.c:6-22 | The array is larger by NALLOC and its old part unchanged. |
| PollLoop.PollServer.Accept | apue.3e/ipc2/opend/loop.poll.c:52-66 | The new descriptor is in both tables, at the end of the entries, with nothing reported for it and its uid recorded; aligned slots stay aligned. |
| PollLoop.PollServer.CloseEntry | apue.3e/ipc2/opend/loop.poll.c:80-89 | The entry is gone, the last one in its place, its slot free, and the two tables still agree; aligned slots stay aligned if and only if it was the last. |
| PollLoop.PollServer.Scan | apue.3e/ipc2/opend/loop.poll.c:68-95 | Events, uids included, entries and table are exactly those of the scan as a function, for which the lemmas above speak. |
| PollLoop.PollServer.Round | apue.3e/ipc2/opend/loop.poll.c:48-96 | After every turn the descriptors in client[] and in pollfd[0..numfd) are the same set, each once, and each reported descriptor has been serviced once; while slots are aligned and no entry but the last is closed, under its recorded uid. |
| SelectLoop.ScanIsRight | apue.3e/ipc2/opend/loop.select.c:40-57 | A scan serves a descriptor if and only if it is a ready client's, under the uid in its slot; a read of nothing closes, any other is handled with its length. |
| SelectLoop.ScanOnce | apue.3e/ipc2/opend/loop.select.c:40-57 | No descriptor is served twice in a scan. |
| SelectLoop.SweptFds | apue.3e/ipc2/opend/loop.select.c:47-52 | The clients left after a scan are those whose read did not end. |
| SelectLoop.ServedAsAccepted | apue.3e/ipc2/opend/loop.select.c:54-54 | Each request is served under the uid recorded when its connection was accepted. |
| SelectLoop.SelectServer.Accept | apue.3e/ipc2/opend/loop.select.c:26-38 | allset gains the descriptor, its slot has its uid, and maxfd and maxi still bound every live client. |
| SelectLoop.SelectServer.Scan | apue.3e/ipc2/opend/loop.select.c:40-57 | Serves what a scan should, in slot order, and leaves allset the listener plus the live clients. |
| SelectLoop.SelectServer.Round | apue.3e/ipc2/opend/loop.select.c:21-58 | After every turn allset is the listener plus the live clients and every live slot is at most maxi. |
| FdProtocol.Writen | apue.3e/lib/writen.c:3-22 | Exactly the first r bytes have been written, all of them when no write fails; -1 exactly when the first write fails, and a count short of all exactly where a later one stops. |
| FdProtocol.ReceivedCodes | apue.3e/lib/sendfd.c:26-31 | Codes -255..-1 come through; codes >= 0 and multiples of 256 become -1; any other keeps its low byte. |
| FdProtocol.SendFd | apue.3e/lib/sendfd.c:13-49 | It succeeds exactly when both trailer bytes go: a null byte and the status; the descriptor goes along exactly when there is one. |
| FdProtocol.SendErr | apue.3e/lib/senderr.c:8-24 | The stream gets the message and then the trailer of a negative code, or a first part of that; it succeeds when nothing fails, and then all of it is there. |
| FdProtocol.ScanBuf | apue.3e/lib/recvfd.c:54-68 | The pointer scan tells plain data, data with a trailer at the very end, and a null byte out of place apart. |
| FdProtocol.RecvFd | apue.3e/lib/recvfd.c:20-74 | The loop does with a sequence of reads what the protocol says, hands userfunc the data before the trailer, and gives up where userfunc does not take what it is handed. |
| FdProtocol.RoundTrip | apue.3e/lib/recvfd.c:29-73 | However message and trailer are cut into reads, for a userfunc that takes what it is handed: if the last read has both trailer bytes, recv_fd() returns the descriptor or minus the status and userfunc gets exactly the message; if not, it ends with a format error. For a userfunc that does not, it returns -1. |
| FdProtocol.ErrorRoundTrip | apue.3e/lib/senderr.c:8-24 | An error sent with a message is received as that message and the code as one byte can say it. |
| FdProtocol.EndsEarly | apue.3e/lib/recvfd.c:41-47 | A stream that ends before its trailer makes recv_fd() return -1, after userfunc has had all of it. |
| FdProtocol.NoneComes | apue.3e/lib/recvfd.c:59-62 | A trailer that announces a descriptor which does not come. |
| MemStream.TypeToFlags | apue.3e/exercises/fmemopen.c:96-138 | Flags are given exactly for strings of r, w or a followed by any of + and b, and are those of the first letter with reading and writing added by a +. |
| MemStream.FindEnd | apue.3e/exercises/fmemopen.c:140-151 | The place of the first null byte, or the length. |
| MemStream.Fmemopen | apue.3e/exercises/fmemopen.c:36-94 | Fails exactly for size 0, a bad type, or no buffer without both reading and writing; otherwise the stream can be read, written, appended to or is truncated as the letters of the type say, and position and size are those of the mode. |
| MemStream.Stream.MRead | apue.3e/exercises/fmemopen.c:153-171 | Reads as from a byte sequence with a position: the bytes from there on, as many as asked for or as there are, and moves past them. |
| MemStream.Stream.MWrite | apue.3e/exercises/fmemopen.c:173-204 | Writes as to a bounded byte sequence with a position; where the stream can be read the null byte never changes its contents. |
| MemStream.Stream.MSeek | apue.3e/exercises/fmemopen.c:206-229 | Moves to any place of the sequence, counted from its start, the position or its end, and refuses all others. |
| MemStream.Stream.Run | apue.3e/exercises/fmemopen.c:153-229 | Any sequence of reads, writes and seeks returns what the byte sequence returns, with curpos <= vsize <= rsize throughout. |
| MemStream.WriteThenRead | apue.3e/exercises/fmemopen.c:153-204 | What is written is read back from where it went, and all other bytes stay. |
| MemStream.ReadsJoin | apue.3e/exercises/fmemopen.c:153-171 | Two reads one after the other are one read of both lengths. |
| MemStream.SeeksAgree | apue.3e/exercises/fmemopen.c:206-229 | A seek from the position or from the end is the seek from the start with the sum. |
| MemStream.TerminatorSpoils | apue.3e/exercises/fmemopen.c:196-202 | A write to a stream that cannot be read leaves something else than was written over what was there exactly when it ends before the end of the stream at a byte that is not null, or fills the buffer with a last byte that is not null. |
| MemStream.SpoilHappens | apue.3e/exercises/fmemopen.c:173-229 | Two writes with a seek between them on a stream opened with "w" after which a byte written is gone. |
| Pipeline.Shell.Pipe | week08Lab2/3pipe.c:17-23 | Two descriptors not in use are the ends of a new pipe. |
| Pipeline.Forked | week08Lab2/3pipe.c:32-63 | The child's duplications and closes leave it exactly what its stage should have; the parent's closes leave it only the new pipe. |
| Pipeline.Waiting | week08Lab2/3pipe.c:52-66 | While a stage runs neither it nor the parent has the write end of its input pipe, so it sees the end of its input. |
| Pipeline.Shell.RunAndWait | week08Lab2/3pipe.c:47-66 | A child finishes exactly when its input ends and its output fits; its output is in its pipe or on the standard output. |
| Pipeline.OverflowHappens | week08Lab2/3pipe.c:47-66 | Two commands for which the pipeline never finishes. |
| Pipeline.ComposedIs | week08Lab2/3pipe.c:9-71 | Two and three commands in a row: the second takes the output of the first. |
| Pipeline.Shell.ExecutePipeline | week08Lab2/3pipe.c:9-71 | Every stage runs with pipe i - 1 and pipe i and no other pipe end; the parent keeps no end of a stage's input and ends with what it began with; the result is the composition of the stages, and the pipeline never finishes exactly when a stage before the last overfills its pipe. |

## Left out

- DbByteRuns.Linearizable: `db_nextrec` is not among the calls, because it takes only the free-list lock while a store that reuses a record rewrites it under the lock of its chain; sequentially it is Database.Db.ReadAll.
- DbByteRuns.Linearizable: two processes creating the database at once, and a process that is killed in the middle of a call, are not modelled.
- FooTheorem.Refines: `malloc` and `pthread_mutex_init` fail or succeed as one step, and wrap-around of the count is not modelled.
- FooOneLock.Foos: memory is a map from addresses to objects so that `free` can be stated; the f_lock field is not used there, as in the source.
- SemTheorem.Protocol: each process has one handle at a time; `sem_rm` called directly, EIDRM for a process that is already waiting (it exits, which may happen at any point anyway), and the value of member [0] after exits are left out.
- SemValue.SemaphoreValue: what the undo of an exit makes of the value is not summed up; the system keeps it within 0 and its maximum.
- CopyLoop.Copy: a failing read or write ends the program; the bytes of a write appear when it completes; the input does not change meanwhile.
- SpoolTheorem.NothingIsLost: wrap-around of numbers is left out, except in PrintQueue.JobList.GetNewJobNo. A data file that is removed while the printer thread has it open reads as gone, which can only happen after a start that is not fresh.
- SpoolTheorem.FirstComeFirstServed: the talk with the printer (headers, response scanning), configuration changes, signals and the list of worker threads are left out; whether a job was printed is what the response scan reports.
- SortMerge.Merge: values equal to LONG_MAX are excluded (the source's numbers come from random(), which stays below it); the library's sort is assumed to sort.
- PollLoop.PollServer.Round: parsing and opening for a request is left out; a failing poll, accept or read ends the program.
- SelectLoop.SelectServer.Round: parsing and opening for a request is left out; a failing accept or read ends the program.
- MemStream.Stream: the library's own buffering between a stream and these functions is left out.
- Pipeline.Shell.ExecutePipeline: a command is a function of its whole input; failures of pipe, fork and exec end the program.
- Terminal, pty, daemon, socket, signal and shell-parsing programs, and the read-write-lock queue, are left out: thin wrappers over the kernel, or proofs like that of the print queue but easier.
