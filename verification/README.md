# Verified models of the APUE database, semaphores and print queue, and of the Vue 2.3.0 core

This project models five pieces of the repository in Dafny and proves what they promise.

**The APUE database library** (`refer_code/apue.2e/db/db.c`). `Database` keeps the index and data files as byte
strings and does what the C code does to them: six-column ASCII pointers, hash chains, a free list, records rewritten in
place. `DbFormat` says which bytes stand for which records, `Links` is the theory of lists threaded through a table,
`DbState` relates the records to a map, and `Decimal` and `Texts` are number fields and string splicing. The main result
is `Database.Database.Session`: any sequence of calls is answered as a plain map answers it. `DbLocks` is the same library
with any number of processes under byte-range locks, one access to a file a step (the two system calls by which
`_db_readidx` reads a record are one step): lists stay well formed, every operation takes effect in one step if a key being
replaced by data of another length counts as holding its old data, and there is no deadlock.

**Vue's virtual DOM diff, reactive core and scheduler** (`vue_stu/vue.js`). `ChildDiff` is `updateChildren` over a mutable
child list; `Reactive` is `Dep`, `Watcher` and computed properties; `Scheduler` is the watcher queue, edited while it is
drained; `Updates` puts the two together: whatever the callbacks do, after a flush every watcher is up to date but those
the guard against endless updates has dropped.

**Vue's template compiler** (`vue_stu/vue.js`). `Html` is `parseHTML` with the stack of `parse`; `Hoist` is the static
optimizer, code generation and the rendering of kept static trees.

**Counting semaphores with undo** (`refer_code/apue.2e/lib/semaph.c`). `Semaph` is a step relation over processes that may
die at any step.

**The print daemon's job queue** (`refer_code/apue.2e/ipp/printd.c`). `PrintQueue` is the doubly linked list in the heap
and its use by client threads and the printer thread.

`Basics` holds what several modules use.

Code that changes things in place is modelled by classes and methods proved against specification functions; protocols of
several processes by state machines over their steps.

Where the code does not do what one would expect, the model follows the code:

- A key with a colon makes a record no later read survives (`DbFormat.ColonBreaksRecord`); `Store` therefore asks for a key
  without colon and NUL.
- `db_store` dies exactly when `StoreDies` says: data out of bounds, an index record too short or too long, or a file past
  what six digits can point to. A replacement that dies on the append has already deleted the key.
- `db_nextrec` takes a live key of blanks for a deleted record (`DbState.ScanExact`, `Database.Database.BlankIsLost`).
- Replacing a key by data of another length deletes the old record and links a new one, and a scan locks no chain: it can
  miss a key that is stored before and after it (`DbLocks.ScanMissesKey`, `DbLocks.ScanMisses`).
- A scan holds only the free list's read lock, so it can read data while an overwrite of the same length writes it
  (`DbLocks.ScanMeetsStore`), and no other write (`DbLocks.ScanRace`); fetches cannot (`DbLocks.NoDataRace`).
- `sem_open` takes no lock, so the last `sem_close` can remove a set just opened (`Semaph.OpenRace`); exactly when is
  `Semaph.RemovalRace` and `Semaph.HoldersSafeExactly`. A creator blocked on the lock when the set is removed gets an error
  that `sem_create` does not retry, because it checks only EINVAL (`Semaph.WaitingCreatorDies`).
- A watcher that queues itself more than 100 times stops the flush; whatever else was queued is dropped, and can stay stale
  (`Updates.App.Runaway`).
- The optimizer takes an element with v-pre for static even when it is a slot, or a component with a slot inside, so slot
  content can be kept for ever (`Hoist.HoistingExact`, `Hoist.SlotNeedsPre`, `Hoist.PreSlotIsStale`).
- A computed property torn down while clean never changes again, whatever is written, read, run, created or torn down
  (`Reactive.Runtime.Session`, `Reactive.FrozenGrown`), and so it can be wrong (`Reactive.Runtime.StaleRead`).

`dafny verify dfyconfig.toml` checks the whole project.

## Model

| member | source | states |
|---|---|---|
| `Decimal.FieldRoundTrip` | refer_code/apue.2e/db/db.c:620-633 | what the `%*ld` field of a pointer or a length prints, `atol` reads back, for every number and width |
| `Decimal.DigitsFit` | refer_code/apue.2e/db/db.c:13-24 | a number fits a k-column field if and only if it is below 10^k |
| `DbFormat.ParseBodyRoundTrip` | refer_code/apue.2e/db/db.c:390-417 | the text of an index record parses back to the key, data offset and data length it was printed from |
| `DbFormat.ColonBreaksRecord` | refer_code/apue.2e/db/db.c:398-409 | for a key without NUL the record reads back if and only if the key has no colon; with a colon every later read of the record dies |
| `DbFormat.PtrReadBack` | refer_code/apue.2e/db/db.c:323-334 | reading the six bytes at a slot or at a record's head gives the pointer stored there |
| `DbFormat.PtrWrite` | refer_code/apue.2e/db/db.c:620-633 | writing six bytes at a pointer's place changes that pointer and no other byte of the index image |
| `DbFormat.RecWrite` | refer_code/apue.2e/db/db.c:567-614 | rewriting a record with the same sizes is an overwrite in place: nothing moves |
| `DbFormat.ReadRec` | refer_code/apue.2e/db/db.c:343-418 | at a record's offset stand its pointer, its length and its body, and the next record follows |
| `DbFormat.AppendRec` | refer_code/apue.2e/db/db.c:567-614 | appending data and then an index record extends both file images by exactly one record |
| `DbFormat.UpdateKeepsLayout` | refer_code/apue.2e/db/db.c:463-525 | a record overwritten at its old sizes keeps every offset in both files |
| `DbFormat.ExtentsTile` | refer_code/apue.2e/db/db.c:531-560 | the records' data extents follow one another without gap or overlap and fill the data file |
| `Links.UnlinkKeeps` | refer_code/apue.2e/db/db.c:516-522 | taking a record off a list keeps every list acyclic, ending and disjoint from the others |
| `Links.PushKeeps` | refer_code/apue.2e/db/db.c:692-699 | putting a record in hand on the front of a list keeps the structure |
| `Links.MovedKeeps` | refer_code/apue.2e/db/db.c:463-525 | moving a record between lists keeps the structure and amounts to three pointer writes |
| `Links.MoveOrder` | refer_code/apue.2e/db/db.c:463-525 | the three pointer writes of a deletion and of a reuse, in their different orders, give the same pointers |
| `Links.OneList` | refer_code/apue.2e/db/db.c:259-301 | no record is on two lists |
| `DbState.FreshOk` | refer_code/apue.2e/db/db.c:134-165 | the file db_open creates holds a consistent, empty database of 138 null pointers |
| `DbState.OnChain` | refer_code/apue.2e/db/db.c:259-301 | every live key is on the chain of its hash |
| `DbState.Walk` | refer_code/apue.2e/db/db.c:259-301 | a walk's position is a pointer that is 0 at the end of the list, and the offset it was read from |
| `DbState.DeletePlan` | refer_code/apue.2e/db/db.c:463-525 | the writes of a deletion, each enabled by the one before, end in the state with the record on the free list |
| `DbState.ReusePlan` | refer_code/apue.2e/db/db.c:692-699 | the writes of the reuse path, from the unlinking on, end in the state with the record on its new chain |
| `DbState.MoveDone` | refer_code/apue.2e/db/db.c:463-525 | after a deletion or a reuse the state is consistent and the map has lost or gained exactly that key |
| `DbState.AppendDone` | refer_code/apue.2e/db/db.c:677-690 | after an append the state is consistent and the map has gained exactly that key |
| `DbState.OverwriteDone` | refer_code/apue.2e/db/db.c:732-737 | overwriting data of the same length changes that key's value only |
| `DbState.ScanIsLive` | refer_code/apue.2e/db/db.c:837-877 | a scan returns every live key that is not all blanks exactly once with its data, and nothing else |
| `DbState.ScanExact` | refer_code/apue.2e/db/db.c:837-877 | the scan is the whole map if and only if no live key is all blanks |
| `Database.Database.constructor` | refer_code/apue.2e/db/db.c:134-165 | a new database is valid and empty; its index file is the header and its data file is empty |
| `Database.Database.ReadPtr` | refer_code/apue.2e/db/db.c:323-334 | the pointer at that place, as the offset of the record it leads to |
| `Database.Database.WritePtr` | refer_code/apue.2e/db/db.c:620-633 | writes the pointer, or dies exactly when the value is above PTR_MAX, changing nothing |
| `Database.Database.ReadIdx` | refer_code/apue.2e/db/db.c:343-418 | the record at the offset, or -1 at the end of the file |
| `Database.Database.ReadDat` | refer_code/apue.2e/db/db.c:424-435 | the record's data |
| `Database.Database.WriteDat` | refer_code/apue.2e/db/db.c:531-560 | overwrites the record's data in place, or appends data and newline |
| `Database.Database.WriteIdx` | refer_code/apue.2e/db/db.c:567-614 | rewrites the record in place, or appends one; dies exactly when the length is out of bounds |
| `Database.Database.HashOf` | refer_code/apue.2e/db/db.c:306-316 | the loop computes the hash of the key |
| `Database.Database.FindAndLock` | refer_code/apue.2e/db/db.c:259-301 | returns 0 standing at the key's record, or -1 when the key is not in the database |
| `Database.Database.DoDelete` | refer_code/apue.2e/db/db.c:463-525 | removes the key the structure stands at, keeps everything else and both file sizes |
| `Database.Database.FindFree` | refer_code/apue.2e/db/db.c:754-807 | unlinks a free record of exactly these sizes, or -1 when there is none |
| `Database.Database.AppendRecord` | refer_code/apue.2e/db/db.c:677-690 | adds the key, or dies exactly when the record or a pointer would not fit |
| `Database.Database.ReuseRecord` | refer_code/apue.2e/db/db.c:691-700 | adds the key in the place of the unlinked free record |
| `Database.Database.Store` | refer_code/apue.2e/db/db.c:639-748 | acts as insert, replace or store on a map with the source's return codes; dies if and only if StoreDies holds, and a dying replace has already lost the key |
| `Database.Database.Delete` | refer_code/apue.2e/db/db.c:440-456 | removes the key; 0 if it was there, -1 if not |
| `Database.Database.Fetch` | refer_code/apue.2e/db/db.c:233-253 | the key's data, or NULL; nothing changes |
| `Database.Database.Rewind` | refer_code/apue.2e/db/db.c:814-829 | the scan to come is that of all the records |
| `Database.Database.NextRec` | refer_code/apue.2e/db/db.c:837-877 | returns the first pending record and leaves the rest, or NULL at the end |
| `Database.Database.SkipBlanks` | refer_code/apue.2e/db/db.c:860-866 | true if and only if the key is all blanks |
| `Database.Database.Answer` | refer_code/apue.2e/db/db.c:233-748 | one call does to the map what a plain map does and answers with its reply, or dies if and only if the state before it satisfies StoreDies; the files grow by at most one record |
| `Database.Database.Session` | refer_code/apue.2e/db/db.c:233-748 | any sequence of calls is answered as a plain map answers it, up to a call that dies; each call dies if and only if the state before it says so, and none dies when keys and data fit and the files have room |
| `Database.Database.NewSession` | refer_code/apue.2e/db/db.c:134-748 | on a new database any 966 calls whose keys and data fit are answered as a plain map answers them, and none dies |
| `Database.Database.BlankIsLost` | refer_code/apue.2e/db/db.c:837-877 | a key of blanks can be stored and fetched, and the scan of that database returns nothing |
| `Database.RoomFits` | refer_code/apue.2e/db/db.c:564-614 | a key of 1 to 1011 characters and data of legal length can always be appended while both files are within what six digits can address |
| `DbLocks.StepsDefined` | refer_code/apue.2e/db/db.c:259-301 | in no interleaving does a step follow a dangling pointer |
| `DbLocks.ReadsTrue` | refer_code/apue.2e/db/db.c:259-301 | a process that holds a list's lock reads the pointers of that list as they will be when nobody owes a write |
| `DbLocks.StepInv` | refer_code/apue.2e/db/db.c:440-807 | every step of fetch, delete, store and scan, by any process in any state, keeps the invariant |
| `DbLocks.RunInv` | refer_code/apue.2e/db/db.c:440-807 | the invariant holds in every state of every run of any number of processes |
| `DbLocks.ListsWellFormed` | refer_code/apue.2e/db/db.c:440-807 | in every state the file spells an acyclic, ending list for every slot but the one chain a deleting process has write-locked; each record is on one list or in one hand; no key is on two live records |
| `DbLocks.StepContent` | refer_code/apue.2e/db/db.c:463-748 | the map of the records changes only when a store overwrites data or writes its chain's slot and when a deletion, or the deletion inside a replacement by data of another length, begins to write; that step changes it by exactly its key |
| `DbLocks.StepOlds` | refer_code/apue.2e/db/db.c:706-731 | while a replacement by data of another length is between its deletion and its new record the key is in no record of the map and its chain is write-locked |
| `DbLocks.StepMeaning` | refer_code/apue.2e/db/db.c:440-748 | with the old data counted in until the new record is linked, each operation takes effect in one step: a store puts its data under its key, a deletion takes its key out, and no other step changes anything |
| `DbLocks.EffectOnce` | refer_code/apue.2e/db/db.c:440-748 | in no run does an operation take effect twice |
| `DbLocks.FetchMeansIt` | refer_code/apue.2e/db/db.c:233-253 | a fetch reads the value the database holds in this sense at that step |
| `DbLocks.MissMeansIt` | refer_code/apue.2e/db/db.c:259-301 | and a search that reaches the end of its chain is right that it holds none |
| `DbLocks.FetchIsTrue` | refer_code/apue.2e/db/db.c:233-253 | a fetch reads the value the map has for its key at that step, whatever the other processes are doing |
| `DbLocks.MissIsTrue` | refer_code/apue.2e/db/db.c:259-301 | a search that reaches the end of its chain is right: at that moment the map does not have the key |
| `DbLocks.NoDataRace` | refer_code/apue.2e/db/db.c:424-560 | while one process writes a record's data no other reads or writes it through a chain |
| `DbLocks.ScanSeesNoDeletion` | refer_code/apue.2e/db/db.c:837-877 | a scanning process finds a non-blank key only on a live record or on one about to be put on its chain, never on one half deleted |
| `DbLocks.ScanMisses` | refer_code/apue.2e/db/db.c:837-877 | under a scan's lock no record has a key the database holds if and only if a replacement of it has deleted the old record and not yet appended the new one |
| `DbLocks.ScanMissesKey` | refer_code/apue.2e/db/db.c:837-877 | for every key that is not blank and all data of different lengths there is a run in which a whole scan finds nothing although the key is stored before and after it |
| `DbLocks.ScanMeetsStore` | refer_code/apue.2e/db/db.c:837-877 | for every key that is not blank and all data of equal length there is a run in which a scan is about to read a record's data and a store to overwrite it |
| `DbLocks.ScanRace` | refer_code/apue.2e/db/db.c:837-877 | of the three ways to write a record's data, a scan's read can meet, in some run, exactly the overwrite |
| `DbLocks.NoDeadlock` | refer_code/apue.2e/db/db.c:259-807 | when a process is inside an operation, some process inside an operation can take its next step |
| `DbLocks.CompatibleBytes` | refer_code/apue.2e/db/db.c:592-613 | two processes are compatible if and only if there is no byte of either file that both have locked, one of them for writing: slots, the index file behind them, the data file |
| `ChildDiff.CreateKeyToOldIdx` | vue_stu/vue.js:4743-4751 | maps exactly the keys of the window, each to the last old child that has it |
| `ChildDiff.StillInPlay` | vue_stu/vue.js:5068-5090 | a key a pending new child shares with an old child belongs to one not yet used |
| `ChildDiff.LookupMiss` | vue_stu/vue.js:5068-5090 | although the key map is built once, a failed lookup means there is no partner |
| `ChildDiff.InsertStands` | vue_stu/vue.js:5058-5066 | in a row without duplicates the element then stands once, right before the reference node or at the end, and the others in their old order |
| `ChildDiff.Parent.InsertBefore` | vue_stu/vue.js:5058-5066 | the element stands once, right before the reference node or at the end, the others in their old order |
| `ChildDiff.Parent.CreateElm` | vue_stu/vue.js:5071-5073 | a fresh element stands once, right before the reference node or at the end |
| `ChildDiff.Parent.RemoveChild` | vue_stu/vue.js:4986-4998 | the element is gone, the others keep their order |
| `ChildDiff.Parent.AddVnodes` | vue_stu/vue.js:4966-4970 | the pending new children are created in place, and the children are then the new list's elements |
| `ChildDiff.Parent.RemoveVnodes` | vue_stu/vue.js:4986-4998 | exactly the unused old elements are removed |
| `ChildDiff.Parent.UpdateChildren` | vue_stu/vue.js:5029-5102 | for distinct keys: the children are the new list's elements in order; a keyed new node with a partner keeps the partner's element; exactly the unmatched old elements are removed; with removeOnly and a subsequence only removals happen |
| `Reactive.Agree` | vue_stu/vue.js:3097-3110 | evaluation from scratch depends only on the cells it reads |
| `Reactive.AddDepKeeps` | vue_stu/vue.js:2765-2774 | adding a dependency keeps the invariant: one subscription for each dependency, old or new |
| `Reactive.CleanEnd` | vue_stu/vue.js:2779-2797 | after the swap a watcher is subscribed to exactly what it has just collected, once each |
| `Reactive.NotifyDone` | vue_stu/vue.js:945-962 | after a write and its notifications whatever is still clean did not read the cell |
| `Reactive.TornDown` | vue_stu/vue.js:2869-2885 | a torn-down watcher leaves every subscriber list and the others unaffected |
| `Reactive.AllAlive` | vue_stu/vue.js:3097-3110 | with no watcher torn down every expression is alive |
| `Reactive.AliveRecall` | vue_stu/vue.js:3097-3110 | and then what an expression means is what evaluating it from scratch gives |
| `Reactive.ClearRecall` | vue_stu/vue.js:3097-3110 | a value computed on clean caches is what the expression means: its value on the cells with the properties that are torn down and clean held at their cached values |
| `Reactive.ClearReads` | vue_stu/vue.js:2765-2774 | where nothing is torn down, a clean value depends on every cell it was computed from |
| `Reactive.FreshMeans` | vue_stu/vue.js:2739-2760 | a watcher that is up to date has the value its getter means |
| `Reactive.ComputesExact` | vue_stu/vue.js:3097-3110 | so the value a run returns is what the expression meant before it, and evaluation from scratch where nothing is torn down |
| `Reactive.RecallSame` | vue_stu/vue.js:2739-2797 | no evaluation changes what an expression means |
| `Reactive.Runtime.constructor` | vue_stu/vue.js:708-733 | no watchers, nothing being evaluated |
| `Reactive.Runtime.NewWatcher` | vue_stu/vue.js:2690-2734 | a lazy watcher starts dirty, another one evaluates at once; the invariant holds |
| `Reactive.Runtime.SetCell` | vue_stu/vue.js:945-962 | writes the cell, marks exactly the lazy subscribers dirty and queues exactly the others, or does nothing when the value is the same |
| `Reactive.Runtime.Notify` | vue_stu/vue.js:727-733 | every subscriber is updated once, in order |
| `Reactive.Runtime.Update` | vue_stu/vue.js:2803-2812 | a lazy watcher becomes dirty, another one is queued |
| `Reactive.Runtime.RunWatcher` | vue_stu/vue.js:2818-2843 | an active watcher gets the value its getter meant before, and is up to date; the callback is called, with the new and the old value, if and only if they differ; a torn-down one does nothing |
| `Reactive.Runtime.Teardown` | vue_stu/vue.js:2869-2885 | the watcher is inactive and in no subscriber list; other watchers are as before |
| `Reactive.Runtime.AddDep` | vue_stu/vue.js:2765-2774 | collects the dependency once and subscribes only if it was not a dependency |
| `Reactive.Runtime.Depend` | vue_stu/vue.js:721-725 | the target collects the dependency |
| `Reactive.Runtime.DependAll` | vue_stu/vue.js:2857-2864 | the target collects every dependency of the computed property |
| `Reactive.Runtime.Run` | vue_stu/vue.js:2739-2760 | a getter run returns the getter's value on caches that are then clean, each cleaned one with the value it meant, and the target has collected all that took part |
| `Reactive.Runtime.ReadComputed` | vue_stu/vue.js:3097-3110 | the property is then clean, its value is returned, and the target has taken over its dependencies |
| `Reactive.Runtime.Evaluate` | vue_stu/vue.js:2849-2852 | the computed property is clean and holds the value it meant |
| `Reactive.Runtime.Get` | vue_stu/vue.js:2739-2760 | the value the getter means; target and stack are restored; the dependencies are those that took part |
| `Reactive.Runtime.CleanupDeps` | vue_stu/vue.js:2779-2797 | stale subscriptions go, new ones stay |
| `Reactive.Runtime.Do` | vue_stu/vue.js:2765-3110 | one write, read, watcher run or teardown: what it returns and changes; a read returns exactly what the property means in the state before it, also through properties torn down clean or dirty; frozen properties stay frozen |
| `Reactive.Runtime.Session` | vue_stu/vue.js:2765-3110 | over any sequence of writes, reads, watcher runs and teardowns: every read returns what the property means in the state before it; that is evaluation from scratch if nothing it may come to has been torn down by then; a frozen property stays frozen and reads the same for ever |
| `Reactive.FrozenKept` | vue_stu/vue.js:2739-2797 | no evaluation changes a computed property torn down while clean, or subscribes it to anything |
| `Reactive.FrozenWrite` | vue_stu/vue.js:945-962 | no write reaches it |
| `Reactive.FrozenDown` | vue_stu/vue.js:2869-2885 | nor does the teardown of a watcher |
| `Reactive.FrozenGrown` | vue_stu/vue.js:2690-2734 | nor the creation of one |
| `Reactive.Runtime.StaleRead` | vue_stu/vue.js:2869-2885 | such a property exists and is wrong: torn down clean, then its cell written, it reads a value its getter does not have |
| `Reactive.EagerWrite` | vue_stu/vue.js:945-962 | after a write a watcher that is not lazy and was up to date is queued or still up to date |
| `Updates.UpToDateMeans` | vue_stu/vue.js:2818-2843 | a watcher that is up to date has the value its getter means |
| `Updates.App.constructor` | vue_stu/vue.js:2546-2552 | no watchers and nothing queued |
| `Updates.App.Watch` | vue_stu/vue.js:2690-2734 | a new watcher, and every active watcher that is not lazy is queued or up to date |
| `Updates.App.Write` | vue_stu/vue.js:945-962 | the same after a write, between flushes or in a callback, which queues exactly the subscribers that are not lazy when the value changes |
| `Updates.App.Read` | vue_stu/vue.js:3097-3110 | the same after a read, which returns what the property means |
| `Updates.App.Teardown` | vue_stu/vue.js:2869-2885 | the same after a teardown |
| `Updates.App.Callback` | vue_stu/vue.js:2832-2840 | the same after a callback of any writes, reads and teardowns; no watcher that is not lazy gets a new value |
| `Updates.App.RunNext` | vue_stu/vue.js:2581-2589 | one run of a flush with its callback: the value, whether the callback is called, and what it queues |
| `Updates.App.Flush` | vue_stu/vue.js:2569-2622 | for every script of callbacks, each of which may write, read and tear down: each run gives its watcher the value its getter means then; whoever is stale at some moment runs later or is dropped, so afterwards all active watchers that are not lazy are up to date but those the guard has dropped, and without a stop there are none; the runs are those of the scheduler for what the callbacks queued |
| `Updates.App.FlushQuietly` | vue_stu/vue.js:2569-2622 | when callbacks do nothing each queued watcher runs once in ascending order, nobody is stale, and the callbacks called are one for each watcher whose value has changed |
| `Updates.App.Runaway` | vue_stu/vue.js:2591-2603 | a watcher whose callback keeps writing its cell is stopped by the guard, dropped, and left stale |
| `Scheduler.Insert` | vue_stu/vue.js:2665-2671 | splicing by id keeps the rest of the queue strictly ascending and adds just that id |
| `Scheduler.Splice` | vue_stu/vue.js:2667-2671 | the position the backward loop finds, never before the running watcher, is the ascending one |
| `Scheduler.HistoryStep` | vue_stu/vue.js:2581-2605 | one run: nothing asked for is lost and nothing runs that was not asked for since it last ran |
| `Scheduler.UpwardOnce` | vue_stu/vue.js:2581-2605 | if runs queue only larger ids, each watcher queued or asked for runs exactly once, in ascending order, and the guard never fires |
| `Scheduler.UpwardEnds` | vue_stu/vue.js:2581-2605 | such a flush makes no more runs than there are ids |
| `Scheduler.CountStep` | vue_stu/vue.js:2591-2603 | the guard's table counts the runs that queued their own watcher |
| `Scheduler.Scheduler.constructor` | vue_stu/vue.js:2546-2552 | empty, nothing scheduled |
| `Scheduler.Scheduler.QueueWatcher` | vue_stu/vue.js:2658-2679 | a queued id changes nothing; otherwise it is appended, or during a flush inserted by id; outside a flush one flush is scheduled exactly when the queue is not empty |
| `Scheduler.Scheduler.RunWatcher` | vue_stu/vue.js:2586-2589 | any re-entrant calls keep the pending part strictly ascending and `has` exactly its ids |
| `Scheduler.Scheduler.Begin` | vue_stu/vue.js:2569-2579 | the queue sorted, nothing lost |
| `Scheduler.Scheduler.Take` | vue_stu/vue.js:2581-2584 | the smallest id to come, no longer marked as queued |
| `Scheduler.Scheduler.Check` | vue_stu/vue.js:2585-2603 | counts a watcher that queued itself and stops at more than 100 |
| `Scheduler.Scheduler.Reset` | vue_stu/vue.js:2554-2564 | between flushes again, with nothing queued |
| `Scheduler.MidwayNext` | vue_stu/vue.js:2581-2603 | one turn of the loop keeps the account of the flush when what a run queues becomes known only then |
| `Scheduler.Scheduler.Flush` | vue_stu/vue.js:2569-2622 | for every script of re-entrant calls: conservation of requests, the order of runs, stopped if and only if some watcher queued itself more than 100 times, and then the pending watchers are dropped |
| `Hoist.OptimizeMeaning` | vue_stu/vue.js:8522-8530 | marking a template does not change what it means |
| `Hoist.MarkStaticTruthful` | vue_stu/vue.js:8539-8560 | an element marked static depends on no expression, however deep |
| `Hoist.MarkStaticExact` | vue_stu/vue.js:8539-8560 | a node is marked static if and only if every node of its sub-tree is static by itself; a closed element hides its content |
| `Hoist.MarkRootsComplete` | vue_stu/vue.js:8562-8588 | the static roots are exactly the outermost static sub-trees worth hoisting, each knowing whether it is in a v-for |
| `Hoist.OptimizeSound` | vue_stu/vue.js:8562-8594 | every static root depends on no expression and contains no other static root |
| `Hoist.QuietDirect` | vue_stu/vue.js:8596-8611 | such a sub-tree means the same in every state with the same slot content, and in every state if it has no slot |
| `Hoist.GenLayered` | vue_stu/vue.js:8832-8836 | a static render function uses only functions pushed before it, and the code only functions of its own part |
| `Hoist.Correct` | vue_stu/vue.js:8799-8911 | hoisted code with any sound set of kept trees renders what the element means and keeps the trees sound |
| `Hoist.FineExact` | vue_stu/vue.js:8539-8594 | the optimizer leaves a reused static root with a slot if and only if the template has, outside v-for, a sub-tree that passes isStatic at every node, is worth hoisting and has a slot in it |
| `Hoist.HoistingCorrect` | vue_stu/vue.js:3763-3780 | for every sequence of states every render equals the template's meaning up to marks, if no reused static root has a slot |
| `Hoist.HoistingStale` | vue_stu/vue.js:8596-8611 | otherwise slot content rendered once is shown again after it is gone |
| `Hoist.HoistingExact` | vue_stu/vue.js:8539-8624 | rendering is right for all sequences of states if and only if the template has no such sub-tree |
| `Hoist.SlotNeedsPre` | vue_stu/vue.js:8596-8611 | in such a sub-tree some element with v-pre is a slot, or an element the optimizer does not look into with a slot inside |
| `Hoist.WithoutPreSlots` | vue_stu/vue.js:8539-8624 | so a template without such an element always renders what it means |
| `Hoist.RenderAll` | vue_stu/vue.js:3763-3780 | compiling a template and rendering it in any sequence of states gives its meaning each time, if it has no such sub-tree; if it has one, slot content stays after it is gone |
| `Hoist.PreSlotIsStale` | vue_stu/vue.js:8603-8610 | a slot with v-pre is such a template |
| `Hoist.Generator.GenNode` | vue_stu/vue.js:8799-8829 | the code of a node, pushing exactly its static render functions |
| `Hoist.Generator.GenFor` | vue_stu/vue.js:8888-8911 | the code of an element past its static root test |
| `Hoist.Generator.GenIf` | vue_stu/vue.js:8865-8868 | the code of an element past its loop |
| `Hoist.Generator.GenIfConditions` | vue_stu/vue.js:8870-8886 | the v-else chain |
| `Hoist.Generator.GenChildren` | vue_stu/vue.js:9035-9048 | the children's code in order |
| `Hoist.Instance.RenderStatic` | vue_stu/vue.js:3763-3780 | the kept tree outside v-for, otherwise a fresh one, which is then kept |
| `Hoist.Instance.Run` | vue_stu/vue.js:3763-3780 | running code is Exec, tree and kept trees |
| `Html.Nearest` | vue_stu/vue.js:7847-7853 | the innermost open element of that name, if any |
| `Html.DecodeEncode` | vue_stu/vue.js:7633-7646 | decodeAttr gives back every attribute value from its encoded form |
| `Html.AttrRead` | vue_stu/vue.js:7597-7611 | a written attribute is matched as itself: its name, its encoded value and nothing after it |
| `Html.RoundTrip` | vue_stu/vue.js:7648-7837 | a tree of plain elements with any attributes, and text, written out, is read back as its own events, attributes included |
| `Html.CommentSkipped` | vue_stu/vue.js:7662-7671 | a comment, up to its first end mark, leaves no event |
| `Html.RawTextVerbatim` | vue_stu/vue.js:7738-7757 | the content of script, style or textarea up to its end tag is one text, whatever is in it |
| `Html.Parser.constructor` | vue_stu/vue.js:7649-7654 | nothing open |
| `Html.Parser.OnStart` | vue_stu/vue.js:8116-8121 | parse pushes unless the tag is unary; the event carries tag and attributes |
| `Html.Parser.OnEnd` | vue_stu/vue.js:8128-8139 | parse pops; there is always an element to pop |
| `Html.Parser.FindOpen` | vue_stu/vue.js:7847-7853 | the closest open tag of the name |
| `Html.Parser.CloseTo` | vue_stu/vue.js:7859-7877 | an end for every open element from the top down to the position; lastTag names the new top |
| `Html.Parser.ParseEndTag` | vue_stu/vue.js:7838-7890 | closes to the nearest tag of the name; a lone br or p end stands for a tag |
| `Html.Parser.ParseStartTag` | vue_stu/vue.js:7768-7790 | the start tag with its attributes as written, or none with the text it used up |
| `Html.Parser.CloseImplied` | vue_stu/vue.js:7796-7804 | what the start tag closes by itself |
| `Html.Parser.HandleStartTag` | vue_stu/vue.js:7792-7837 | opens the element unless it is unary, with its attributes decoded |
| `Html.Parser.Tag` | vue_stu/vue.js:7662-7706 | one comment, conditional comment, doctype, end tag or start tag |
| `Html.Parser.Text` | vue_stu/vue.js:7708-7737 | text up to the next token |
| `Html.Parser.RawText` | vue_stu/vue.js:7738-7757 | the content of script, style or textarea |
| `Html.Parser.Parse` | vue_stu/vue.js:7648-7767 | for every template: the loop ends, the events are a balanced word, both stacks agree, and lastTag is always the top |
| `Semaph.StepInv` | refer_code/apue.2e/lib/semaph.c:89-253 | every step, and death at any step, keeps the invariant |
| `Semaph.CountersCount` | refer_code/apue.2e/lib/semaph.c:222-253 | in every run: member [1] once set is BIGCOUNT less the open handles, member [2] is the number of lock holders and 0 or 1 |
| `Semaph.SawBound` | refer_code/apue.2e/lib/semaph.c:242-246 | the `> BIGCOUNT` branch is unreachable |
| `Semaph.StepSafe` | refer_code/apue.2e/lib/semaph.c:89-163 | without sem_open, every step keeps: whoever has a set open has the one that exists |
| `Semaph.HeldSetsLive` | refer_code/apue.2e/lib/semaph.c:124-252 | attaching only through sem_create, nobody loses a set and nobody sees one before its initial values |
| `Semaph.OpenRace` | refer_code/apue.2e/lib/semaph.c:174-197 | with sem_open there is a run that removes a set a process has open |
| `Semaph.HandleStep` | refer_code/apue.2e/lib/semaph.c:174-253 | while a closer holds the lock, only sem_open adds a handle, and only exiting takes one from another process |
| `Semaph.RemovalRace` | refer_code/apue.2e/lib/semaph.c:174-253 | the set a sem_close removes is open in another process if and only if that process went through sem_open between the close's reading of the counter and the removal and has not exited |
| `Semaph.HoldersSafeExactly` | refer_code/apue.2e/lib/semaph.c:174-253 | a run keeps every open set in existence if and only if no sem_close in it overlooks a sem_open in this way |
| `Semaph.WaitingCreatorDies` | refer_code/apue.2e/lib/semaph.c:106-123 | there is a run in which a creator blocked in its wait for the lock exits because the set is removed |
| `PrintQueue.Queue.AddJob` | refer_code/apue.2e/ipp/printd.c:275-294 | the list is the old one with the job at the end, linked both ways |
| `PrintQueue.Queue.ReplaceJob` | refer_code/apue.2e/ipp/printd.c:301-313 | the list is the old one with the job in front |
| `PrintQueue.Queue.RemoveJob` | refer_code/apue.2e/ipp/printd.c:320-331 | the list without that job, wherever it stood |
| `PrintQueue.Daemon.AddJob` | refer_code/apue.2e/ipp/printd.c:275-294 | order of jobs kept; the job is last |
| `PrintQueue.Daemon.TakeJob` | refer_code/apue.2e/ipp/printd.c:687-694 | takes the first job, or waits exactly when there is none |
| `PrintQueue.Daemon.FinishJob` | refer_code/apue.2e/ipp/printd.c:717-729 | the job in hand is done, printed or cancelled |
| `PrintQueue.Daemon.DeferJob` | refer_code/apue.2e/ipp/printd.c:825-832 | the job in hand is first again |
| `PrintQueue.Daemon.Do` | refer_code/apue.2e/ipp/printd.c:683-833 | one event: what is added, finished and in hand after it |
| `PrintQueue.Daemon.Run` | refer_code/apue.2e/ipp/printd.c:683-833 | over every interleaving: the jobs finished are the first ones added, as many as there were Finish events with a job in hand; the next is in hand if it was taken since, and the others wait in order |

## Left out

- Failing system calls, opening and closing files, buffers and their sizes, the statistics counters of `DB`: reads and
  writes are operations on byte strings.
- Database.Database.Store: keys with a colon or NUL are excluded; what they do to a record is `DbFormat.ColonBreaksRecord`.
- Database.Database.Session: stores are of keys without colon or NUL, and nothing is said about calls after one that dies.
- Database.Database.Answer: the same.
- Database.Database.NewSession: stores are of keys without colon or NUL.
- `DbLocks` starts from a new database and has no process that dies; file contents there are records and extents, not bytes.
- ChildDiff.Parent.UpdateChildren: keys are compared as property names and are pairwise distinct among the old and among
  the new children; with duplicate keys the source warns and may go on to read a property of undefined. Names inherited by
  objects are not modelled. Patching of a pair's own content, hooks and transitions are left out; an element is removed at
  once.
- Reactive: getters are expressions over numbers; sync and deep watchers, nested objects, arrays and getters that throw are
  left out. Watchers are numbered so that getters mention smaller numbers, which excludes cycles. Tearing a watcher down in
  the middle of its own evaluation is left out.
- Reactive.Runtime.NewWatcher: a getter mentions only computed properties created before it.
- Updates: callbacks create no watchers, and a script is finite, so a flush that never ends is not described.
- Scheduler.Scheduler.Flush: a script is finite, so a flush that never ends is not described; the updated and activated
  hooks after the flush are left out. Watchers that throw are left out.
- Html: warnings and source positions are left out; of `parse` only the element stack is modelled.
- Html.RoundTrip: is about tags that have no special treatment, attributes in double quotes, and text without `<`.
- Hoist: no v-once, inline-template, scoped slots or component resolution; one slot; expressions are arbitrary functions of
  the state and the loop indices. The marks are new values of the tree instead of fields set in place. That an element with
  v-pre has no compiled parts is a fact of the parser (`vue_stu/vue.js:8038-8066`) and an assumption here.
- Semaph: member [0] after initialisation and the user's own operations on it; the interrupt of a blocked operation by a
  signal; fewer than BIGCOUNT users, as the source assumes.
- PrintQueue: the condition variable, the network exchange and the worker list.
- The remaining programs of the repository: most of the examples of the two system programming books
  (`refer_code/apue.2e`, `refer_code/tlpi-dist`), which each show a system call or two; their daemons and servers and the
  inotify directory tracker, whose work is an exchange with the kernel or the network; the U-Boot start-up code and driver
  (`uboot_analyze`) and the device access of `design_pattern`; the translation table of `po2lmo`; the Lua, Perl, shell and
  JavaScript exercises of a few lines; and of Vue the parts that call the browser.
