# fuse_kafka: what its hardest parts promise

fuse_kafka follows files and file-system writes and sends what was written to Kafka. It is built
with `fabricate.py`, a build tool that skips commands whose recorded inputs and outputs have not
changed. This project models the parts of both that keep state which is easy to get wrong, and
proves what each is for, for all inputs, all runs and all interleavings:

* **The parallel scheduler of `fabricate.py`** (`Groups`, `SharedGroups`, `Scheduler*`,
  `Commuting`): a two-thread step system. The main thread registers commands and waits for groups, the results
  thread collects finished tasks, dispatches blocked commands and wakes the main thread. Every
  method of the group table is one atomic step, so the two threads and the pool may interleave in
  any way. An inductive invariant gives safety of dispatch and of waiting, propagation of failures,
  exact counters, progress by a decreasing measure, and exactly which commands run, which waits end
  well and why not. A parallel build whose commands interfere
  only along "after" ends in the files of the serial build, although its tasks overlap and read and
  write as they go.
* **The strace log interpreter** (`Strace*`): reassembling split calls and replaying the lines of a
  process that arrived before its `clone` line gives the files that a direct reading of the log,
  call by call and each process in its parent's directory, would give; and exactly when it raises
  instead.
* **The memoizing builder** (`Memoize`, `Builder`, `MemoizeLimits`, `Cleaning`): a build with
  skipping ends in the file system of the full build, over any number of sessions with edits between
  them; the exact conditions under which variations of it do not; and what cleaning leaves.
* **The bandwidth quota** (`TimeQueue`, `TimeQueueRuns`, `Quota`): the ring of hash and time slots
  is a first-in-first-out cache, and the bytes admitted over a whole run are bounded.
* **The store-and-forward queue** (`EventQueue`, `StoreAndForward`): a doubly linked list on the
  heap refines a bounded sequence; over runs, exactly the writes that a reference predicate selects
  come out, once and in order.
* **The hash table and file tailing** (`Chains`, `ChainsRuns`, `HashTable`, `Tailing`, `Rewriting`,
  `Tailer`, `Setup`, `Inotify`): chained buckets against a map, every appended byte shipped once from
  setting up on, exactly which bytes are lost when a directory appears or a file is rewritten, and
  who frees which path.
* **Base64** (`Base64`): the bit-streaming loop against section 4 of RFC 4648.
* **The configuration** (`Tokenizer`, `Arguments`): printing, cutting the line in place and grouping
  the words restore a configuration, and exactly when.
* **The broker list** (`StringList`, `Brokers`, `Watching`, `WatchingRuns`): printing into a buffer,
  splitting by editing the buffer and putting it back, and what a client has passed to Kafka after
  any sequence of notifications.

Objects that the source updates in place are classes here, and its loops are loops. Each method is
tied to a function of the old state, and the properties are lemmas about those functions.

## Where the code does not do what it is meant to do

The model keeps the code as it is. Each difference below comes with its exact condition, but for two
that have no lemma: the undefined lock, and the memory of directory paths.

* `fk_hash_remove` clears the whole bucket when the removed entry heads its chain
  (src/hash.c:107): `ChainsRuns.RemoveExact`, `ChainsRuns.HeadTakesOthers`,
  `ChainsRuns.AgreesWithMap`.
* `base64` tests `j < size` where `j < n` is meant (src/util.c:50) and so reads past its input:
  `Base64.TextExact`, `Base64.ReadsPastTheInput`.
* The broker printer ends with a comma, and goes on with whatever its buffer held, when the last
  node is not a broker (src/zookeeper.c:91-94): `Brokers.ListedExact`, `Brokers.CommaTrails`,
  `WatchingRuns.SplitExact`.
* With `inputs_only` a command may be skipped although its outputs changed
  (`MemoizeLimits.InputsOnlyExact`, `MemoizeLimits.OutputUnnoticed`); a runner that reports nothing leaves stale hashes in the cache
  (`MemoizeLimits.UntrackedExact`); a file that did not exist when a command ran is in no record
  (`MemoizeLimits.MissingFileUnnoticed`, and `MemoizeLimits.FootprintIsAll` for what must be assumed of
  it); in parallel a command is checked before the commands it waits for have run
  (`MemoizeLimits.EarlySkipExact`, `MemoizeLimits.EarlySkip`, `MemoizeLimits.EarlySkipWrong`).
* A clone made before the line of the cloning process's own clone is complete is not delayed
  (fabricate.py:610-623): `StraceProof.RaisesExact` and `StraceProof.StartsExact`, with two logs in
  `StraceEarly.WrongDirectory` and `StraceEarly.UnknownParent`.
* The results thread ends when it reaches an entry that waits for a group that was never registered
  (fabricate.py:957): `SchedulerPass.CrashExact`.
* The methods of the group table use a name `lock` that is not defined there (fabricate.py:805),
  although the lock is `self.lock` (fabricate.py:801): the lock of the object is modelled. No lemma.
* A path hash of 0 marks a free slot of the time queue (src/time_queue.c:53, 81):
  `TimeQueue.FreshFinds`, and a path that has it in `TimeQueue.UnluckyKey`.
* Characters are signed, so a string that is not ASCII may have an index outside the hash table
  (src/hash.c:26): `Chains.HashableExact`, `Chains.BeforeTheTable`.
* A queued event keeps its buffer only up to the first NUL (src/queue.c:48):
  `EventQueue.CopiedExact`.
* A list whose first array could not be allocated is left behind without one, and the next addition
  would write through it (src/string_list.c:37-39, 84): `StringList.Servers.Add`.
* A file rewritten without becoming shorter than its offset is not shipped from its start
  (src/handle_file_modified.c:17): `Tailing.RewriteShipsWhole`, `Rewriting.LivesExact`.
* When a directory appears, the lengths its files have by then are recorded as read
  (src/plugins/input/inotify.c:97-104), so what was written before is never shipped:
  `Tailing.ShippedExact`, `Tailing.NewDirectory`.
* A path found while setting up that is in the table already is neither stored nor freed
  (src/plugins/input/inotify.c:50): `Tailer.Tail.SetupOffset`. The paths of directories that are gone
  into are never freed (src/plugins/input/inotify.c:75-80, 101): no lemma.

## Model

| member | source | states |
|---|---|---|
| SharedGroups.GroupTable.AddForBlocked | fabricate.py:898-912 | the command joins its group's list and is not counted as blocked any more; the item stays when the counter check raises. The other methods of the class are tied to their functions in the same way |
| SchedulerPass.LookAt | fabricate.py:955-958 | the results thread's look at one waiting entry, made on the shared object, decides in the same way, and ends where the reading steps of the system end when nobody interferes |
| SchedulerPass.CrashExact | fabricate.py:956-980 | that look raises if and only if a group the entry waits for was never registered and those named before it have not failed; otherwise a command is handed to the pool exactly when the counts leave nothing to do and no flag is down, skipped exactly when nothing is left and one is, the main thread woken with that verdict, and the entry left alone while something is left to do |
| SchedulerSteps.StepInv | fabricate.py:936-982 | every step of either thread or of the pool, from any state of the invariant, keeps the invariant over lists, counters, flags, results, pool and both program counters |
| SchedulerSteps.RunKeepsInv | fabricate.py:936-982 | the invariant holds in every state of every run |
| SchedulerSafety.DispatchSafe | fabricate.py:955-965 | once a command registered with "after" is in the pool, every command that was counted in an awaited group at its registration has run, succeeded and had its dependencies saved, although the counters are read one at a time |
| SchedulerSafety.RunsOnlyAfter | fabricate.py:955-972 | a command in the pool has everything it waits for, directly or through others, succeeded |
| SchedulerSafety.FailurePropagates | fabricate.py:957-972 | no command that waits, at any distance, for one that did not succeed is ever handed to the pool |
| SchedulerSafety.WaitSafe | fabricate.py:1430-1454 | when the main thread's wait ends without error, every command counted in an awaited group when it began has succeeded |
| SchedulerSafety.WakeUpNotLost | fabricate.py:973-979 | whenever the results thread notifies, the main thread is waiting for exactly that entry and goes on with its verdict |
| SchedulerSafety.CountersOf | fabricate.py:786-797 | in any state of the invariant a group's counter is its unfinished items plus its blocked commands, up to the one paired update each thread may have begun |
| SchedulerSafety.Accounting | fabricate.py:826-912 | the same in every state of every run; no counter is below zero and the results thread never meets an exception |
| SchedulerReasons.RunFounded | fabricate.py:936-982 | in every state of every run, flags that are down, verdicts under way, waits that ended badly and commands not run all have a reason: a command of the awaited groups that is recorded as not having succeeded |
| SchedulerVerdicts.NotRunFounded | fabricate.py:957-972 | in every state of every run, a command that was not run waits for a group with a command that did not succeed |
| SchedulerVerdicts.RootCause | fabricate.py:957-972 | following such commands leads to one that failed itself, so nothing is skipped in a build without failures |
| SchedulerVerdicts.RanExact | fabricate.py:955-972 | once nothing is pending, each command was handed to the pool or not run; one that waits for groups that all succeeded was, and one that waits for a counted command that did not succeed was not |
| SchedulerVerdicts.OutcomeExact | fabricate.py:942-953 | a command is recorded as saved exactly when its task ended well, as failed exactly when it ended badly, and as not run only when it never was at work |
| SchedulerVerdicts.NoFailure | fabricate.py:942-972 | while no task ends badly, everything recorded is saved |
| SchedulerVerdicts.WaitExact | fabricate.py:1441-1443 | a wait ends the build exactly when some command of the awaited groups did not succeed, and goes on otherwise |
| SchedulerVerdicts.FlagExact | fabricate.py:942-972 | a group is flagged only for a command of its own that did not succeed, and for each such one as soon as the results thread has got to it |
| SchedulerVerdicts.GroupsExact | fabricate.py:826-844 | a group can be waited for exactly when some command was asked for under its name, up to date or not |
| SchedulerVerdicts.Accepted | fabricate.py:1134-1148 | while the main thread is idle it may ask for any command under any name, blocked on or waiting for any groups that are known, and a task at work may end either way |
| SchedulerProgress.MeasureDecreases | fabricate.py:936-984 | every step that is not a new request decreases a measure over unfinished and blocked work, the main thread's position and the rest of the results thread's pass; the start of a pass does so while there is something for it to collect, dispatch or wake |
| SchedulerLiveness.Progress | fabricate.py:936-984 | with an acyclic "after" relation, while anything is pending some step is enabled that decreases the measure |
| SchedulerLiveness.Drain | fabricate.py:936-984 | from every reachable state with an acyclic "after" relation, finitely many steps lead to a state in which every command is collected or marked as not run and nobody waits |
| Commuting.ApartCommute | fabricate.py:1134-1151 | two commands that keep to footprints, neither writing what the other may read, look for or write, leave the same files in either order |
| Commuting.OrderMakesNoDifference | fabricate.py:1134-1151 | a sequence of commands may be sorted by number when each commutes with those of larger numbers before it |
| SchedulerEnds.BusyApart | fabricate.py:955-965 | commands that are at work at the same time have footprints apart, when those registered interfere only along "after": neither can be waiting for the other |
| SchedulerBuild.ViewIsBase | fabricate.py:955-965 | whatever moments since its dispatch a task reads its files at, it reads what a serial run would read that comes after the commands ended so far |
| SchedulerBuild.ParallelIsSerial | fabricate.py:936-984 | in any run whose commands keep to footprints, separate unless the later one waits for the earlier, directly or through others: though tasks overlap, read at any time since their dispatch and write as they go, wherever none is at work the files are those of the serial build, in the order in which they were asked for, of the commands that have ended |
| SchedulerBuild.WholeBuild | fabricate.py:936-984 | when nothing is pending and no task has failed, every registered command has run, once, and the files are exactly those of the serial build |
| SchedulerBuild.DeferredPlays | fabricate.py:1145-1149 | tasks that read when they are handed to the pool and write when they end are among those that the theorem speaks of |
| StraceRunner.LogReader.MatchLine | fabricate.py:574-587 | one line: split calls are stored, reassembled and interpreted; an unknown resumed call raises |
| StraceRunner.LogReader.MatchBody | fabricate.py:589-695 | one whole call: files go to the dependencies or outputs of its process, a clone creates the child or replays its delayed lines in the parent's directory, lines of unknown processes are delayed |
| StraceRunner.LogReader.ReplayLines | fabricate.py:620-623 | the delayed lines take effect in order and are cleared |
| StraceRunner.LogReader.ReadLog | fabricate.py:540-572 | on a well-formed log the loop raises exactly when an unknown process clones; otherwise it returns the last status, and, when whoever clones early is still at home, exactly the files read and written of the reference reading |
| StraceProof.Replay | fabricate.py:616-623 | replaying the delayed lines of a process in its right directory gives the files and the directory that handling them in time would give |
| StraceProof.PrefixOk | fabricate.py:574-695 | after every prefix of a well-formed log in which no unknown process clones, the tables are those that the log so far means |
| StraceProof.RaisesExact | fabricate.py:610-615 | the interpreter raises if and only if some process other than the root clones before the line of its own clone, having made no file call and no change of directory |
| StraceProof.CollectsSeen | fabricate.py:574-695 | in every other well-formed log it collects exactly the files of the processes, each started where the interpreter takes it to start |
| StraceProof.StartsExact | fabricate.py:612-623 | that is where each process did start, if and only if whoever cloned early a process that acts was in the directory the command was started in |
| StraceProof.TestsAgree | fabricate.py:624-650 | the interpreter tells the calls that write or make their file from those that only name it exactly as the reference does |
| StraceProof.WordsAgree | fabricate.py:627 | a mode has a word exactly when the word stands at some place of it |
| StraceProof.JoinLaws | fabricate.py:656 | an absolute name stands for itself, another is put behind the directory with one slash between them |
| StraceProof.FilesExact | fabricate.py:624-675 | a kept name is an output if and only if some call of the log opens it for writing, creates it, makes it as a link or a directory, or renames a file to it, and a dependency if and only if some call names it and does nothing of that |
| StraceProof.ReplayEqualsOrder | fabricate.py:574-695 | together: split calls, lines that arrive before the clone line and clones of clones, and the interpreter collects exactly the files and the status of the reference |
| StraceEarly.EarlyAway | fabricate.py:612-619 | a file used by the child of an early clone is recorded as if the child had started where the command was started, and not where its parent was |
| StraceEarly.WrongDirectory | fabricate.py:610-623 | a log of six lines for which the interpreter records `f` where the command used `./sub/f` |
| StraceEarly.UnknownParent | fabricate.py:610-615 | a log of four lines that makes the interpreter raise |
| Memoize.UpToDateHasNoEffect | fabricate.py:1232-1269 | a command whose recorded files all have their recorded hashes would change nothing if it ran, when the files its recorded run looked for in vain are still missing |
| Memoize.FreshRecordIsUpToDate | fabricate.py:1175-1202 | a record just made is up to date on the file system the run left |
| Memoize.GoodRunIsClean | fabricate.py:1181-1200 | after a good run the hash cache is still true of every file that is not an output |
| Builder.Builder.CmdlineOutOfDate | fabricate.py:1232-1269 | the answer is exactly that the command has no record, or some recorded file is missing or has another hash; the hash cache stays true |
| Builder.Builder.HashInputs | fabricate.py:1185-1193 | the dependencies are recorded with their current hashes, through the cache |
| Builder.Builder.HashOutputs | fabricate.py:1194-1200 | the outputs are recorded with their new hashes, which replace those of the cache |
| Builder.Builder.Complete | fabricate.py:1175-1202 | after a clean run the record holds the hash of every reported file and the cache is true; a run that reports nothing changes neither |
| Builder.Builder.Execute | fabricate.py:1113-1154 | the file system is that of the command's run, and of a run with a footprint exactly its record is kept |
| Builder.Builder.Run | fabricate.py:1113-1154 | a command is skipped exactly when it is up to date; skipped or not, the file system and the records end as if it had been executed, unless a file has appeared that its recorded run looked for; when only checking, nothing changes and the flag is raised exactly for commands that are out of date |
| Builder.Builder.Build | fabricate.py:1113-1154 | incremental equals full: any sequence of commands run with skipping ends in the file system and the records of executing them all, when no file appears that the recorded run of an up-to-date command looked for in vain |
| Builder.Builder.OutOfDate | fabricate.py:1224-1230 | the answer is whether some command is not up to date; nothing is run |
| Builder.Builder.Autoclean | fabricate.py:1271-1289 | a file goes if and only if it can be removed and is the records file or was reported as an output by a recorded run; what was only read stays with its content, the records are emptied, and the cache stays true exactly when it holds no removed file |
| Builder.RecordedExact | fabricate.py:1277-1279 | the records mark as outputs exactly the files that some recorded run reported as outputs |
| Builder.BuiltIsRecorded | fabricate.py:1194-1200 | after a build that holds of every output of the last run of each of its commands |
| Cleaning.Disk.Autoclean | fabricate.py:1279-1304 | a file stays exactly when it is no output or cannot be removed; an output that is a directory is removed, by trying the directories in reverse order, exactly when it and all that lies in it at any depth are outputs that can be |
| Cleaning.InsideFirst | fabricate.py:1296-1298 | the reverse order puts what lies in a directory before it |
| Builder.Sessions | fabricate.py:1313-1349 | over any sessions with arbitrary edits between them, each ends as a full build of its own starting point would, under the same condition on files that appear |
| MemoizeLimits.InputsOnlyExact | fabricate.py:1258-1261 | with `inputs_only`, skipping is as good as running if and only if the outputs are unchanged too |
| MemoizeLimits.OutputUnnoticed | fabricate.py:1258-1261 | a command whose output was edited and that is taken to be up to date with `inputs_only`, though running it would restore the output |
| MemoizeLimits.UntrackedExact | fabricate.py:1175-1178 | a run that reports nothing leaves the cache true if and only if it rewrites no cached file with other contents |
| MemoizeLimits.MissingFileUnnoticed | fabricate.py:1181-1200 | a command that probed a file that did not exist stays "up to date" when the file appears: everything the builder relies on holds but that the file is still missing |
| MemoizeLimits.FootprintIsAll | fabricate.py:1232-1269 | nothing weaker will do: wherever a file that was read differs or one that was looked for has appeared, some command with the same recorded run and the same record changes the files |
| MemoizeLimits.EarlySkipExact | fabricate.py:1122-1151 | whatever the commands waited for do, skipping early is right in every world with the same recorded run, record and other commands if and only if they leave every recorded file with its hash and nothing that the recorded run looked for in vain has appeared |
| MemoizeLimits.EarlySkip | fabricate.py:1122-1151 | when any commands waited for leave the files that an up-to-date command read with their hashes, skipping it early is right if and only if they leave all its recorded files so |
| MemoizeLimits.EarlySkipWrong | fabricate.py:1122-1151 | a build of two commands that ends differently because of the early check |
| TimeQueue.Queue.constructor | src/time_queue.c:42-56 | a queue of the given size starts with every slot free |
| TimeQueue.Queue.HashKey | src/time_queue.c:21-27 | the djb2 hash of the key in an unsigned 64-bit word |
| TimeQueue.Queue.Set | src/time_queue.c:75-95 | a stored hash keeps its slot and gets the new time; another takes the slot after the last one taken |
| TimeQueue.Queue.Get | src/time_queue.c:110-120 | the time in the first slot with the key's hash, none if there is none |
| TimeQueue.Queue.Overflows | src/time_queue.c:137-144 | false when no time is stored; otherwise false exactly when time has passed since and the size is at most the quota times the seconds elapsed |
| TimeQueue.GetRefines | src/time_queue.c:110-120 | looking up the ring is looking up the first-in-first-out cache it holds |
| TimeQueue.SetRefines | src/time_queue.c:75-95 | setting in the ring is setting in the cache: hits keep the order, a miss in a full cache evicts the oldest |
| TimeQueue.FreshFinds | src/time_queue.c:42-120 | a fresh queue finds exactly the hash 0, with time 0 |
| TimeQueue.UnluckyKey | src/time_queue.c:21-27 | the path of a log file whose hash is 0 |
| TimeQueueRuns.RingRefinesCache | src/time_queue.c:75-119 | along every run of settings of nonzero hashes the ring and the cache agree for every hash |
| TimeQueueRuns.StaysFor | src/time_queue.c:75-119 | a hash stays until exactly `size` misses have followed its insertion, and gives its latest time until then |
| Quota.StoredIsLast | src/output.c:114-118 | a stored time is the time of the last write to that hash |
| Quota.BytesBound | src/output.c:114-118 | over any run on any mix of paths, the bytes admitted for a hash by comparison with a stored time are at most the quota times the time from its first to its last write |
| Quota.UntrackedBound | src/output.c:114-118 | the writes admitted without a stored time number the evictions of the hash, plus one while it is stored |
| Quota.Run | src/output.c:101-119 | over any run on any mix of paths a gate admits exactly the writes that find no stored time and those that fit into what their path has earned since its last write |
| Quota.AdmittedExact | src/output.c:114-118 | the writes that the bounds speak of are exactly these |
| Quota.Gate.ShouldWrite | src/output.c:101-119 | an excluded path is refused and leaves the queue alone; without a queue all is admitted; otherwise a write is admitted exactly when no time is stored for its path or it is within the quota since then, and the time is recorded |
| EventQueue.CopiedExact | src/queue.c:46-48 | an event comes back from the queue as it was if and only if its strings hold no NUL |
| EventQueue.QueueEvent.constructor | src/queue.c:45-53 | a node holds copies of the strings up to their first NUL, the size and the offset |
| EventQueue.Queue.DropFirst | src/queue.c:26-40 | of two events or more the oldest leaves the chain; a single one stays |
| EventQueue.Queue.Append | src/queue.c:51-55 | the new node ends the chain, linked both ways |
| EventQueue.Queue.Enqueue | src/queue.c:41-57 | the links form one acyclic chain again, whose events are the old ones and the new one; the oldest goes exactly when there were any and as many as the maximum |
| EventQueue.Queue.Clear | src/queue.c:58-75 | taking nodes off from the newest leaves an empty chain and a size of zero |
| EventQueue.Queue.Dequeue | src/queue.c:76-88 | every event is handed over, oldest first, and the queue is empty |
| EventQueue.Output.Write | src/output.c:135-147 | when ready, all that waits goes out and then the write; otherwise the write is queued |
| StoreAndForward.Run | src/output.c:135-147 | over any run the heap objects go through exactly the states of the value-level machine |
| StoreAndForward.WrittenInOrder | src/queue.c:26-88 | the events written are exactly those whose output got ready before more than the bound piled up behind them, in order and each once; those queued are the last ones since then |
| StoreAndForward.ComesOutExact | src/queue.c:26-88 | a write comes out if and only if the first write from it on that finds the output ready has no more than the maximum of writes before it, or one |
| StoreAndForward.WaitingExact | src/queue.c:41-57 | as many events wait as writes were made since the output was last ready, up to the maximum |
| StoreAndForward.Conservation | src/queue.c:26-88 | produced equals written plus queued plus dropped |
| StoreAndForward.LastOnes | src/output.c:138-146 | after a not-ready stretch that starts with an empty queue, exactly the last ones up to the maximum, or one when it is less, are written before the next live one |
| Chains.HashableExact | src/hash.c:21-27 | the index of a string of bytes lies in the table if and only if its first and last characters, as signed bytes, add up to 0 or more, or to -100 or -200; so it does for ASCII |
| Chains.WeightExact | src/hash.c:21-27 | what is divided is the sum of the first and the last byte, each as the signed number congruent to it |
| Chains.BeforeTheTable | src/hash.c:21-27 | a path that is not ASCII whose index is -40 |
| Chains.StoredSound | src/hash.c:55-78 | storing keeps a chain to names of its bucket, each once |
| ChainsRuns.PutLaw | src/hash.c:55-78 | storing a value changes what is found under its own name only |
| ChainsRuns.RemoveLaw | src/hash.c:97-114 | what is found after a removal, for every name, the cleared bucket included |
| ChainsRuns.RemoveExact | src/hash.c:97-114 | a removal affects its own name alone if and only if the name does not head a chain with more entries |
| ChainsRuns.HeadTakesOthers | src/hash.c:105-110 | two names of one bucket of which removing the newer loses the other |
| ChainsRuns.AgreesWithMap | src/hash.c:55-114 | over any run of puts and removals, a lookup of any name agrees with a mathematical map at every point if and only if no removal hits the head of a chain with more entries |
| HashTable.Table.Seek | src/hash.c:103-113 | the walk stops at the first node with the key, with the node before it, or at the end of the chain; every key read is still allocated |
| HashTable.Table.Get | src/hash.c:83-95 | the value stored under the key, none if there is none |
| HashTable.Table.Overwrite | src/hash.c:68-71 | only the value of that node changes |
| HashTable.Table.Prepend | src/hash.c:74-76 | a key that is not in the table is stored at the head of its bucket's chain, and joins the keys |
| HashTable.Table.Unlink | src/hash.c:108 | the node leaves its chain and the rest stay in order |
| HashTable.Table.Clear | src/hash.c:107 | the bucket is empty and the others are as before |
| HashTable.Table.OnlyHere | src/hash.c:55-114 | a node stands in one place of one chain only: the chains are disjoint |
| HashTable.Table.Put | src/hash.c:55-78 | the table is that of the value-level operation, and the key object becomes a stored key exactly when its name is new |
| HashTable.Table.Remove | src/hash.c:97-114 | the table is the value-level removal, and the only string freed, if asked, is the one stored as the key; keys that go with the head of their chain stay allocated |
| HashTable.Table.DeleteChain | src/hash.c:45-50 | a chain is deleted from its end on, each key freed once if asked |
| HashTable.Table.Delete | src/hash.c:115-125 | all buckets end empty, and the strings freed, if asked, are exactly those that were keys, each once |
| Tailing.LineShape | src/handle_file_modified.c:20 | a line holds no newline but at its end, and ends with one unless the file ends there |
| Tailing.TwoLines | src/handle_file_modified.c:20-24 | a file of two lines is handed over in two pieces |
| Tailing.PiecesExact | src/handle_file_modified.c:17-24 | the pieces concatenate to the bytes from the offset to the end, and are cut only after newlines and at the end of the file |
| Tailing.ModifiedShips | src/handle_file_modified.c:17-30 | a noticed modification ships, for its file and no other, the bytes from where reading resumes to the end |
| Tailing.ShippedOrLost | src/handle_file_modified.c:5-31 | for any number of files and any run of appends, noticed modifications and directories set up, the bytes shipped for a file are its content from the starting offset to its length when it was last read or passed over, once and in order, without those that were passed over unread |
| Tailing.LostExact | src/plugins/input/inotify.c:44-57 | a byte is lost exactly when a directory was set up over the file while the byte had been written and not read |
| Tailing.ShippedExact | src/plugins/input/inotify.c:97-104 | every byte up to the last look is shipped if and only if whatever a directory was set up over had been read by then |
| Tailing.ShippedOnce | src/handle_file_modified.c:5-31 | so every byte is, once and in order, in runs that set up no directory over the file |
| Tailing.NewDirectory | src/plugins/input/inotify.c:97-104 | of a file under a new directory the lost bytes are exactly those written before the directory was set up, and the later ones are shipped once and in order |
| Tailing.RewriteShipsWhole | src/handle_file_modified.c:17-18 | a rewritten file is shipped whole if and only if it is shorter than its offset, or the offset is zero |
| Rewriting.LivesExact | src/handle_file_modified.c:5-31 | over any run of appends, rewritings and notices of a file, what is shipped is what it held in each of its lives when last read, one after the other, if and only if each rewriting is first noticed while the file is shorter than its offset or the offset is zero; otherwise less is |
| Tailer.Tail.HandleModified | src/handle_file_modified.c:1-37 | the pieces handed over, the offset stored, and the path stored as a key or freed, with the copy freed in every case |
| Tailer.Tail.LookUp | src/handle_file_modified.c:3-10 | a known path goes on with its offset, an unknown one with a copy and offset zero |
| Tailer.Tail.Follow | src/handle_file_modified.c:14-34 | the part from opening the file to storing the offset, or to freeing an unknown path that does not open |
| Tailer.Tail.Ship | src/handle_file_modified.c:17-24 | the loop hands over exactly the pieces from where reading resumes |
| Tailer.Tail.Notice | src/handle_file_modified.c:1-37 | log and table move as the file world does; allocated strings are the table's keys and those that were others' before: each path is stored or freed once |
| Tailer.Tail.SetupOffset | src/plugins/input/inotify.c:44-57 | the current length is stored, or the path freed; a path is left over exactly when it opens and is known already |
| Setup.PrepareKeeps | src/plugins/input/inotify.c:62-88 | setting up a directory takes away no watch and no offset, and the only offsets it changes or adds are the lengths of files |
| Setup.PrepareRecords | src/plugins/input/inotify.c:62-88 | the offsets afterwards are the old ones overwritten with the lengths of exactly the files under the directory |
| Setup.AllCovered | src/plugins/input/inotify.c:62-88 | after setting up, the directory and every directory under it is watched, and of every file under it that opens the length is recorded |
| Setup.FollowedFromSetup | src/plugins/input/inotify.c:62-88 | the bytes shipped for a file under a directory are exactly those appended after setting up, up to its length when its last modification was noticed |
| Inotify.Watcher.WatchDirectory | src/plugins/input/inotify.c:37-43 | the descriptor gets the directory, under a copy of its path, and all else stays |
| Inotify.Watcher.SetupFile | src/plugins/input/inotify.c:44-57 | the length of a file that opens is recorded, and all else stays |
| Inotify.Watcher.SetupWatches | src/plugins/input/inotify.c:62-88 | the recursion leaves in the two tables exactly what the preparation of the whole directory tree holds |
| Inotify.Watcher.StartsInStep | src/plugins/input/inotify.c:159-172 | once set up, log and tables are those of a file world with the recorded offsets, from which notifications are followed |
| Inotify.Unpacks | src/plugins/input/inotify.c:132-140 | reading a packed notification gives back its descriptor, mask, length and name |
| Inotify.PathsDiffer | src/plugins/input/inotify.c:14-20 | different directories or slash-free names give different paths |
| Inotify.ReadEvent | src/plugins/input/inotify.c:136-138 | the fields read at a position are those of the notification packed there, and the next one starts after its name |
| Inotify.Watcher.EventPath | src/plugins/input/inotify.c:14-20 | the watched directory, a slash and the name in new memory, or none for an unknown descriptor |
| Inotify.HasExact | src/plugins/input/inotify.c:97-121 | each bit that is looked at is told whatever stands in the others |
| Inotify.MovedExact | src/plugins/input/inotify.c:94-131 | in the kernel's numbers: a new directory with a name under a watched one is prepared, a modified file with a name under one is followed, and nothing else has an effect |
| Inotify.MovedAsTold | src/plugins/input/inotify.c:94-131 | what a notification makes of offsets and log is the modification, or the set-up of the files under the new directory, that it tells of |
| Inotify.AfterTold | src/plugins/input/inotify.c:132-140 | a sequence of notifications moves offsets and log through what they tell of, each read against the watches that those before it left, so that the theorems about runs apply |
| Inotify.CreatedIsCovered | src/plugins/input/inotify.c:97-104 | once its notification is handled, a new directory and every directory under it are watched, and every file under it is followed from the length it has |
| Inotify.Watcher.HandleCreate | src/plugins/input/inotify.c:97-108 | only new directories with a name under a watched one are set up; watches and offsets are those of the preparation of the tree |
| Inotify.Watcher.HandleModify | src/plugins/input/inotify.c:120-129 | only modifications of files with a name are followed, and the world moves by exactly that modification |
| Inotify.Watcher.OnEvent | src/plugins/input/inotify.c:94-140 | walking a buffer of packed notifications moves log, offsets and watches through the modifications and new directories they tell of, in order, and leaves no path over when no directory appears |
| Base64.EncodedLength | src/util.c:45 | the encoding is 4*ceil(n/3) digits long |
| Base64.DigitTable | src/util.c:29-30 | the digits are those of table 1 of RFC 4648 |
| Base64.Vectors | build.py:227-229 | three of the test vectors of section 10 of RFC 4648 |
| Base64.RoundTrip | build.py:227-229 | decoding the encoding of section 4 of RFC 4648 gives the bytes back |
| Base64.Push | src/util.c:51-61 | one bit goes into its cell, and when a cell begins the one before it is converted |
| Base64.Stream | src/util.c:48-63 | after all bits every cell but the last holds its digit, and the last its number |
| Base64.Finish | src/util.c:64-66 | the last cell is converted when nothing is added, and the padding written otherwise |
| Base64.Convert | src/util.c:38-68 | the text that the loop makes of the buffer, ended by a NUL; none exactly when the buffer ends within the last group of three, where the loop would read outside it |
| Base64.GroupCell | src/util.c:48-63 | each cell of a group holds the digit that the standard takes from the group's three bytes |
| Base64.TextExact | src/util.c:38-68 | the text is the encoding of section 4 of RFC 4648 if and only if the bits that the loop reads past the input are zero |
| Base64.ReadsPastTheInput | src/util.c:50 | an input of one byte that is encoded wrongly because of the byte after it |
| Tokenizer.Count | src/dynamic_configuration.c:83-84 | the counting pass counts the words |
| Tokenizer.CutBack | src/dynamic_configuration.c:92-100 | a space and those right before it become NULs, and no word is touched |
| Tokenizer.Fill | src/dynamic_configuration.c:89-101 | one position of the filling pass: a word that starts there is recorded, a space before it or after the last word is cut |
| Tokenizer.Parse | src/dynamic_configuration.c:79-104 | for any line without NULs the two passes agree, the pointers are the starts of all words, and every space after the first character has become a NUL |
| Tokenizer.PointersRead | src/dynamic_configuration.c:87-102 | each pointer reads, up to the next NUL, the longest stretch without a space that starts there |
| Tokenizer.JoinExact | src/fuse_kafka.py:170-171 | cutting what was printed gives the words back if and only if each is nonempty and has no space |
| Arguments.PrintArgs | src/fuse_kafka.py:161-169 | the options with their dashes, each followed by its items |
| Arguments.Config.ParseArguments | src/arguments.c:48-94 | the outcome of grouping: the items of every option, a refusal at an unknown option, or a write through an unset pointer when an item comes first |
| Arguments.KnownExact | src/arguments.c:60-74 | the options that are known, by name |
| Arguments.OutcomeExact | src/arguments.c:48-94 | the unset pointer is written through if and only if the first argument is no option, and a list is refused if and only if it starts with an option and has one that is not known |
| Arguments.StaysTidy | src/arguments.c:54-90 | no item of an accepted list looks like an option, and all lie within the arguments |
| Arguments.PlainExact | src/arguments.c:57 | what an item must be to be restored: nonempty, without a space, and not longer than two characters with two dashes first |
| Arguments.RestoredExact | src/arguments.c:48-94 | a configuration with known, distinct options comes back with exactly its items if and only if every item is nonempty, has no space and does not look like an option |
| Arguments.Reload | src/dynamic_configuration.c:79-104 | printing, cutting in place, reading through the pointers and grouping have together the outcome that the value-level theorem speaks about |
| StringList.Servers.Contains | src/string_list.c:16-27 | whether the string is in the list |
| StringList.Servers.Resize | src/string_list.c:59-69 | ten more slots with the same contents, or nothing when memory is short |
| StringList.Servers.Add | src/string_list.c:74-88 | the string is appended exactly when every allocation needed succeeds; otherwise the list keeps its contents, or is left without an array exactly when that one allocation of a new list fails |
| StringList.Servers.AddOnce | src/string_list.c:96-103 | 0 exactly when the string was there, 1 exactly when it was added |
| StringList.AddedFirsts | src/server_list.c:10-27 | adding one by one keeps the strings distinct and in order of first appearance, and changes the list exactly when one is new |
| StringList.SplitJoined | src/server_list.c:18-25 | splitting at commas recovers what was joined |
| StringList.AddField | src/server_list.c:19-24 | one field is read through the NUL put in place of its comma, added once, and the buffer is as before |
| StringList.AddServers | src/server_list.c:10-27 | every field is added once, the result says whether one was new, and the buffer is unchanged |
| Brokers.Print | src/zookeeper.c:69-99 | the buffer starts with the brokers and their commas; it ends with a NUL, or goes on as it was after a last node that is not a broker |
| Brokers.DecimalExact | src/zookeeper.c:89 | a port is printed in decimal digits that stand for it, without leading zeros, behind a minus sign if it is below zero |
| Brokers.PrintedJoins | src/zookeeper.c:69-99 | what is printed is the brokers joined by commas, and one comma more after a last node that is not a broker |
| Brokers.PrintedReads | src/zookeeper.c:69-99 | the string read from the buffer is the joined brokers, or that and a comma and the stale rest |
| Brokers.ListedExact | src/zookeeper.c:91-94 | the string is exactly the brokers joined by commas if and only if the last node is a broker or none is |
| Brokers.CommaTrails | src/zookeeper.c:91-94 | two nodes, a broker and one that is not, that are printed as something else than the list of the one broker |
| Watching.Client.AddBrokers | src/zookeeper.c:103-117 | a connected client adds the brokers and passes the whole list to Kafka exactly when one of them is new; the buffer is unchanged |
| Watching.Client.Watch | src/zookeeper.c:118-141 | a notification is handled exactly when a topic is configured and the client waits for brokers or the children of the broker path changed |
| Watching.HandledExact | src/zookeeper.c:132-133 | a notification is handled while the client waits for brokers, and whenever children change at or under the broker path |
| WatchingRuns.Run | src/zookeeper.c:118-141 | over any sequence of notifications, with the configuration and the Kafka handle coming and going between them, a client goes through exactly the states of the value-level machine for the notifications at which both are there, within the capacity of its list |
| WatchingRuns.SplitRecovers | src/server_list.c:18-25 | when the last node is a broker or none is, and the hosts have no commas, splitting the printed string recovers the brokers, malformed nodes between them or not |
| WatchingRuns.SplitExact | src/server_list.c:18-25 | when there are brokers and the hosts have no commas, splitting the printed string recovers the brokers if and only if the last node is a broker |
| WatchingRuns.EachBrokerOnce | src/zookeeper.c:103-117 | over any sequence of clean notifications the list holds each broker heard of once, in order of first appearance |
| WatchingRuns.PassedExact | src/zookeeper.c:103-117 | a list is passed to Kafka exactly when it holds a broker not heard of before, and the client waits for brokers exactly while nothing has been passed |

## Left out

- Running commands, regular expressions on strace output, atimes probing, the JSON file of records
  and MD5: a command is a deterministic function with a report, the hasher an injective function, the
  log a list of tokenised lines, the tests on file names a fixed predicate.
- Commands that fail in the sequential builder, and files deleted while a session runs.
- Builder.Builder.Build: needs runs whose reports are complete; the exact effect of reports that are
  not is in `MemoizeLimits`.
- Builder.Builder.Autoclean: a directory among the outputs is a path like another here; `Cleaning` has
  directories, and no records. What is printed is left out.
- StraceProof.ReplayEqualsOrder: that a `chdir` failed is not looked at by the source's pattern, and not
  here. Files may agree by chance although a process was started elsewhere than it was; the lemma says
  that they do agree when none was.
- SchedulerSafety.DispatchSafe: group names handed to the builder differ from the key `False` of the
  internal group, and awaited groups exist (`SchedulerPass.CrashExact` says what happens otherwise). The stop event and the death of the results thread after
  an unexpected exception (which `SchedulerSafety.Accounting` shows not to come from the table), the
  pool's own processes, `AtimesRunner`, `SmartRunner` and option parsing are not modelled.
- Quota.BytesBound: exact rationals instead of `float`, a clock that does not go back, hashes other
  than 0 and a size of at least 1. The truncation of the size to an unsigned int is not modelled.
- Quota.Gate.ShouldWrite: the exclusion patterns are a boolean, and the two clock readings are
  parameters.
- EventQueue.QueueEvent.constructor: allocation succeeds, and a buffer is ended by a NUL where
  `strdup` looks for one, as `getline` ends its lines; a FUSE write buffer need not be.
- EventQueue.Queue.DropFirst: the strings of the dropped event, which the source does not free, are
  not accounted for.
- SchedulerBuild.ParallelIsSerial: files are changed by the commands of the build only, and each keeps
  to one footprint whatever it reads.
- HashTable.Table.Remove: the flag by which the caller has values freed is not modelled, here and in
  `HashTable.Table.Delete`.
- HashTable.Table.Seek: the three equal search loops of the source are one method. Keys are integers or
  nonempty strings whose index lies in the table, one kind in a table; a NULL key is not modelled. A lookup returns an option instead of -1,
  which is never a stored offset.
- Inotify.Watcher.OnEvent: deletions, which the watches do not ask for, and with them the teardown. Files
  and directories do not change while one buffer of notifications is handled.
- Inotify.Watcher.SetupWatches: the directory tree and the kernel's descriptors are parameters, one
  descriptor for each directory; nothing changes while it is gone through.
- Base64.Convert: a NULL input and failing allocation.
- Arguments.Reload: `parse_line` and the JSON it reads, the reading of the line from its file, the
  formatting of fields and tags, and lines that hold NULs.
- StringList.AddServers: memory that is asked for is given; failing allocations are modelled for one
  addition in `StringList.Servers.Add`.
- Watching.Client.Watch: ZooKeeper, jansson and librdkafka calls are parameters or entries of a
  sequence; text that does not fit its buffer, and the creation of the topic, are not modelled.
- FUSE calls, plugins, tracing, event formatting, Windows input, benchmarks, packaging, services and
  the Ruby consumers.
