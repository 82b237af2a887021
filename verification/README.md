# Verification of the Sarracenia message pump

Sarracenia (sr3) moves announcements of files between message brokers and acts on them. This
project models the parts of it that keep state across steps, in Dafny 4.11, and proves what they
promise: which messages survive a crash and which do not, that shared queues lose and double nothing, that files sent
in blocks are put together exactly, that every message of a pass ends in one place and is
acknowledged once, that delays keep order, that link credit is conserved, that times keep their
order as text, and that subscriptions stay consistent.

Check everything with `dafny verify dfyconfig.toml`.

## How it is laid out

| files | part of the program |
|---|---|
| `Sequences`, `Decimals` | order-preserving subsequences; numbers as text and the order of texts |
| `RetryMessage`, `FifoQueue` | what a housekeeping keeps of a retry queue; the abstract FIFO queue with generations that both drivers implement |
| `DiskFiles`, `DiskQueueState`, `DiskQueue`, `DiskQueueRuns`, `DiskQueueFaults` | the file-backed retry queue: its files, one operation at a time, the class itself, whole runs with and without crashes, and a housekeeping whose filter raises |
| `RedisQueue` | the shared retry queue, as an interleaving of single Redis commands |
| `Blocks`, `Reassembly`, `BlockManifest`, `BlockReassembly` | block offsets, the arrival of the blocks of a version, the manifest and its text form, the plugin |
| `Worklist`, `FlowState`, `Flow`, `FlowConservation`, `FlowEnds`, `FlowQueues` | what is decided for one message, a pass as a function of the state, the loops that carry it out, what a pass and a run keep, where each message ends, and the retry queues of a flow as FIFO queues |
| `RetryCap`, `RetryEnds`, `RetryRounds` | the retry limit over runs: what it bounds, when it ends a message whatever else is in the flow, and a failing message in a quiet flow and in a busy one |
| `MDelayLatest` | the delay plugin |
| `Amqp1` | the AMQP 1.0 receiver (sections 2.6.7 and 3.4.2 of the OASIS AMQP 1.0 standard) |
| `TimeText` | times as text (section 4.16 of POSIX.1-2017 for the calendar) |
| `Subscriptions` | subscriptions and queue names |

Code that changes things in place is a class whose methods are proved to change the state exactly as
a specification function says; the theorems are about those functions and about runs of them. What
the outside world answers (transfers, file operations, masks, clocks, brokers, random names) is a
parameter, so each theorem holds for all answers. Time is a whole number of ticks.

## What the code does not do as one might read it

Each of these is proved with its exact condition, and with a concrete case where it helps.

* A get that is interrupted after it removed the queue file, and before it returns, loses the batch it
  read. It can happen if and only if the get reads to the end of the file, or counts down to nothing,
  with an unexpired message unread: `DiskQueueRuns.CrashLosesIff`, `DiskQueueRuns.BatchLost`; over
  whole runs `DiskQueueRuns.LostIff`.
* A retry message is remembered before its age is looked at, so an expired message takes later,
  unexpired ones of the same key with it: `RetryMessage.KeySurvivesIff`,
  `RetryMessage.UnexpiredDuplicateLost`.
* A `.new` file already merged is discarded at start-up if and only if the file times advanced
  in between: `DiskQueueRuns.StaleDiscarded`. No loss follows either way, but with equal times its
  messages come twice: `DiskQueueRuns.SameTimeKept`.
* Two files can have one key, so that one of them is not retried, if an address has a space in it:
  `RetryMessage.SpaceConfuses`; without spaces the key tells address, version and partition apart:
  `RetryMessage.KeysAgreeIff`.
* After a restart with a `.new` file but no queue file the queue says that it is empty:
  `DiskQueueRuns.LengthAfterRestart`.
* A sender passes on the removal of a directory only if removing directories, deleting files and making
  directories are all configured: `Worklist.RefusedUnsent`.
* A saved subscription without a template decides the queue of every line that comes to it, whatever the
  broker: `Subscriptions.OldNameIs`.
* After a crash during a housekeeping the work is redone at once if and only if no line of the
  queue file is counted as a message: `DiskQueueRuns.RedoneBeforeRename`.
* A rename whose old name is accepted by the first mask and whose new name is refused is put on no
  list and never acknowledged: `Worklist.DroppedIff`, `FlowConservation.AckedOnce`,
  `FlowConservation.MovedNeverAcked`.
* A rename that succeeded can put a message on two lists: `Worklist.LandsOnce` and
  `Worklist.FileOpEnds` say exactly when.
* The retry limit R counts takings from the retry queues, and a pass takes from them only if it has
  room: without refiltering, if less than half a batch has passed the filter
  (`RetryEnds.RoomIff`, `RetryEnds.TakesFront`, `RetryEnds.NotTakenIff`). Over any run, a message that
  is not done, rejected or dropped is given up if and only if it has been taken often enough:
  (R + 1) / 2 times from the download queue without refiltering; once with it if R = 1, and never if R
  is larger, since the counter starts again at each return; or R times from the post queue, with
  refiltering or without; `RetryEnds.GivenUpIff` has one condition for all of these and their mixtures.
  So in a flow whose every pass brings half a batch of accepted messages nothing that is ready to be
  retried is ever taken, given up, or, as such a queue is not rotated, expired: `RetryEnds.BusyStays`,
  `RetryEnds.BusyForever`, `RetryRounds.BusyOrQuiet`.
* A restart, even after a clean stop, reads the queue file from its start: all that was handed out since
  the last housekeeping comes again if and only if the file is still there, which on intact files means
  that not all of it was handed out: `DiskQueueRuns.ReadAgain`, `DiskQueueRuns.FileLeftIff`.
* A housekeeping of the disk queue whose filter raises renames and removes the files all the same: that
  message and all after it are gone, and those before it as far as they were not yet flushed. All
  messages are accounted for if and only if none of those read makes the filter raise:
  `DiskQueueFaults.RaisesIff`, `DiskQueueFaults.OneSpoilsAll`.
* A file longer than a new version keeps its tail if and only if it has a manifest that at no arrival,
  with the blocks come so far in place of its own, stands for more than the new version:
  `Reassembly.ReassembledIff`, `Reassembly.SurplusKept`.
* Two messages of one pass that name the same block file end the pass at the second, with the lock of
  the whole file held and the ok list not replaced, but the messages on it that were handled changed
  where they stand: `BlockReassembly.CompletesIff`, `BlockReassembly.TwiceStops`.
* A fraction below a ten-thousandth of a second loses its leading digit as text, and exactly such a
  time fails to sort before every later, legibly written one: `TimeText.TextReads`,
  `TimeText.TextOrderIff`, `TimeText.TinyLost`, `TimeText.TinyOrder`.
* Two templates that once expand to the same name can leave the second without an entry, so that
  its later lines can go to another queue: `Subscriptions.KeepsQueueIff`, `Subscriptions.TwoQueues`.
* A receiver that opens with some credit, but less than the prefetch, gets more than the prefetch:
  `Amqp1.OpenCreditExact`.
* An acknowledgement that is queued but reported as failed leaves a message held after it is settled,
  so that more can be in flight than the prefetch allows; a connection stays clean of this in a step
  if and only if the step is no such request: `Amqp1.CleanStepIff`, `Amqp1.InFlightBound`,
  `Amqp1.FailedAckOverflows`.
* The delay plugin forwards messages younger than the delay: exactly those held when a message of the
  same path comes and one of the two carries a file operation, and those still held at a stop:
  `MDelayLatest.ForwardedYoung`, `MDelayLatest.NewForwarded`.

## Model

| member | source | states |
|---|---|---|
| RetryMessage.KeysAgreeIff | sarracenia/diskqueue.py:291-308 | two messages have one key if and only if address, version identifier and partition agree, as long as addresses and partitions have no space and both have a partition or neither |
| RetryMessage.PathsApart | sarracenia/diskqueue.py:291-308 | messages of one server and partition, with no space in their paths, have one key if and only if path and version identifier agree |
| RetryMessage.PartsApart | sarracenia/diskqueue.py:307-308 | messages that differ in the partition alone have different keys, whatever the texts |
| RetryMessage.LowerIgnored | sarracenia/diskqueue.py:293-300 | the duplicate key goes before the file operation, that before the checksum, and that before the publication time |
| RetryMessage.SpaceConfuses | sarracenia/diskqueue.py:305 | two files, one with a space in its path, that have one key |
| RetryMessage.KeptVersions | sarracenia/diskqueue.py:285-344 | a message is kept if and only if it is unexpired and none read before announces the same file in the same version and partition |
| RetryMessage.SurvivorsInOrder | sarracenia/diskqueue.py:329-344 | what a housekeeping keeps is in the order in which it was read |
| RetryMessage.SurvivorsAre | sarracenia/diskqueue.py:285-344 | a message is kept if and only if it is the first read of its key and is not expired; what the key tells apart is said by `KeysAgreeIff` |
| RetryMessage.SurvivorsDistinct | sarracenia/diskqueue.py:285-312 | no key is kept twice |
| RetryMessage.KeySurvivesIff | sarracenia/diskqueue.py:329-344 | a key is kept if and only if the first message of that key is unexpired, whatever follows |
| RetryMessage.UnexpiredDuplicateLost | sarracenia/diskqueue.py:335-342 | a concrete pair: the first expired, the second of the same key live, and nothing is kept |
| RetryMessage.SurvivorsUnexpired | sarracenia/diskqueue.py:314-327 | nothing kept is expired at that time |
| RetryMessage.ExpiryIs | sarracenia/diskqueue.py:314-327 | with a limit above 0, expired are the messages published longer ago than that; without one none |
| FifoQueue.ExplainedStep | sarracenia/diskqueue.py:134-283 | each action of the abstract queue keeps the account of what was put, taken and kept per generation |
| FifoQueue.KeptInOrder | sarracenia/diskqueue.py:387-483 | what all generations kept is an order-preserving subsequence of what they were made of |
| FifoQueue.FifoRun | sarracenia/diskqueue.py:231-283 | over any run, what was taken is an order-preserving subsequence of what was put, and with what is ready it is exactly what the generations kept |
| DiskFiles.NextMsgReads | sarracenia/diskqueue.py:346-367 | reading skips undecodable lines and nothing else: it yields the first readable message and leaves the rest readable |
| DiskFiles.ReadableEntries | sarracenia/diskqueue.py:134-146 | messages written out are read back as they were |
| DiskFiles.CountCoversReadable | sarracenia/diskqueue.py:180-200 | counting lines with a brace never gives less than the readable messages, corrupt lines included |
| DiskQueueState.ScanReads | sarracenia/diskqueue.py:242-273 | the reading loop consumes a prefix of the unread messages, hands out its unexpired part in order, and stops short only at the end of the file |
| DiskQueueState.GetReads | sarracenia/diskqueue.py:231-283 | a get hands out the unexpired ones of the first unread messages, leaves the rest unread, and never removes a file with an unread message |
| DiskQueueState.RecoverConsistent | sarracenia/diskqueue.py:119-130 | start-up on any disk, corrupt lines included, gives a count at least the number of readable unread messages, and does not touch the queue file |
| DiskQueueState.PutConsistent | sarracenia/diskqueue.py:134-146 | a put adds exactly its messages to `.new` and leaves what is unread alone |
| DiskQueueState.HousekeepingRotates | sarracenia/diskqueue.py:387-480 | a housekeeping that runs finds nothing unread, makes the next generation exactly the filtered `.new`, and counts it exactly |
| DiskQueue.DiskQueue.constructor | sarracenia/diskqueue.py:119-130 | recovery: the state read from the disk, and the only file it may remove |
| DiskQueue.DiskQueue.CountLines | sarracenia/diskqueue.py:180-200 | the count is the number of lines with a brace |
| DiskQueue.DiskQueue.Put | sarracenia/diskqueue.py:134-146 | the state after a put, and every disk a crash in it could leave |
| DiskQueue.DiskQueue.MsgGetFromFile | sarracenia/diskqueue.py:346-367 | the next decodable message and position, or neither at the end |
| DiskQueue.DiskQueue.ReadUpTo | sarracenia/diskqueue.py:244-273 | the reading loop of get: messages, position and count |
| DiskQueue.DiskQueue.Get | sarracenia/diskqueue.py:231-283 | messages handed out, the state after, and every disk a crash in it could leave |
| DiskQueue.DiskQueue.InCache | sarracenia/diskqueue.py:285-312 | says whether the key is known, and adds it either way |
| DiskQueue.DiskQueue.NeedsRequeuing | sarracenia/diskqueue.py:329-344 | true if and only if the key is new and the message unexpired; the key is added in any case |
| DiskQueue.DiskQueue.Close | sarracenia/diskqueue.py:156-178 | positions and counts are forgotten, time and keys are kept |
| DiskQueue.DiskQueue.MergeFile | sarracenia/diskqueue.py:414-446 | the merge of one file extends `.hk` by exactly what the filter keeps of it, and touches no other file |
| DiskQueue.DiskQueue.MergeAll | sarracenia/diskqueue.py:398-450 | `.hk` holds exactly what is kept of both files, and N is its length |
| DiskQueue.DiskQueue.OnHousekeeping | sarracenia/diskqueue.py:369-483 | the state after a housekeeping, and every disk a crash in it could leave |
| DiskQueueRuns.RefinesFifo | sarracenia/diskqueue.py:134-480 | in every consistent state each operation is an action of the FIFO queue with generations |
| DiskQueueRuns.ExactGet | sarracenia/diskqueue.py:239-283 | after a housekeeping on intact files, a get hands out exactly the next messages asked for, or all that are left, and the count stays exact |
| DiskQueueRuns.DeliversGenerations | sarracenia/diskqueue.py:134-480 | over every run without crashes, the messages of all gets are an order-preserving subsequence of those put, generation by generation exactly the unexpired first occurrences, and the count says exactly how many are left |
| DiskQueueRuns.SafeStep | sarracenia/diskqueue.py:119-480 | every operation, crash between any two file operations, restart and decay of a line keeps every message put accounted for, a batch lost by an interrupted get under its own head |
| DiskQueueRuns.NothingLost | sarracenia/diskqueue.py:119-480 | over every run with crashes and restarts, each message put was handed out by a get that returned, dropped as duplicate or expired, gone with a decayed line, lost by a get that crashed on its way back, or is readable on disk; and the count of a running process covers what it can read |
| DiskQueueRuns.CrashLosesIff | sarracenia/diskqueue.py:252-283 | a crash in a get can lose messages if and only if the get removes the file and an unread message is unexpired; then it loses all those |
| DiskQueueRuns.LastGetLoses | sarracenia/diskqueue.py:275-283 | after a housekeeping on intact files, exactly a get that asks for all that is left, or more, can lose it |
| DiskQueueRuns.BatchLost | sarracenia/diskqueue.py:275-283 | one message, one get and a crash before its return: the message is handed to nobody and readable by nobody |
| DiskQueueRuns.LostIff | sarracenia/diskqueue.py:231-283 | over every run nothing is so lost if and only if no get was interrupted after it had removed the file with an unexpired message unread |
| DiskQueueRuns.DroppedWhy | sarracenia/diskqueue.py:329-344 | a message dropped by a housekeeping was expired or came after one of the same key |
| DiskQueueRuns.RedoneBeforeRename | sarracenia/diskqueue.py:119-130 | after a crash before the rename the housekeeping runs again at once if and only if no line of the queue file counts, and then gives the same files |
| DiskQueueRuns.StaleDiscarded | sarracenia/diskqueue.py:125-130 | after a crash between rename and removal the new generation is whole with an exact count, and `.new` is discarded if and only if file times advanced |
| DiskQueueRuns.SameTimeKept | sarracenia/diskqueue.py:125-130 | one message and equal file times: after the restart it is both in the queue file and waiting |
| DiskQueueRuns.ReadAgain | sarracenia/diskqueue.py:119-123 | after any gets and puts since a housekeeping, a restart brings back all that was unread then, handed out or not, if and only if the queue file is still there; otherwise nothing of it is left |
| DiskQueueRuns.FileLeftIff | sarracenia/diskqueue.py:252-281 | on intact files the queue file is there if and only if something of it is unread |
| DiskQueueRuns.LengthIs | sarracenia/diskqueue.py:202-212 | over every run without crashes the length is the number of messages that can be got now or after the next housekeeping |
| DiskQueueRuns.LengthAfterRestart | sarracenia/diskqueue.py:112-130 | after a restart the length covers what can be got if the queue file is there; if not it is 0, whatever waits |
| DiskQueueRuns.TurnsOverIff | sarracenia/diskqueue.py:387-389 | a housekeeping with messages waiting turns them over if and only if none is counted in the queue file and that is not open; else it changes nothing |
| DiskQueueFaults.FaultyReads | sarracenia/diskqueue.py:397-480 | after a housekeeping that raises the count covers what can be read, which is a prefix of what would have been kept of the messages before the one it raised at |
| DiskQueueFaults.RaisesIff | sarracenia/diskqueue.py:397-480 | a housekeeping accounts for every message it read if and only if the key of each can be computed; otherwise nothing from the first without a key onwards can be read |
| DiskQueueFaults.OneSpoilsAll | sarracenia/diskqueue.py:433-480 | two messages, the first without a key: both are gone |
| RedisQueue.CommittedOk | sarracenia/redisqueue.py:373-392 | at the end of a housekeeping the main list is empty and N is the length of `.hk`: the rename overwrites nothing |
| RedisQueue.LockOkStep | sarracenia/redisqueue.py:303-318 | at every command exactly the lock holder is in the critical section |
| RedisQueue.InvStep | sarracenia/redisqueue.py:224-395 | every command of every instance, at any moment, keeps the invariant and is an action of the abstract FIFO queue |
| RedisQueue.RunOk | sarracenia/redisqueue.py:224-395 | over any interleaving the lists and the history of the FIFO queue agree |
| RedisQueue.SharedFifo | sarracenia/redisqueue.py:224-395 | in every reachable state each decodable message pushed is in exactly one place, and the pops of all instances together are the FIFO queue's, generation by generation |
| RedisQueue.PutsArrive | sarracenia/redisqueue.py:224-231 | over every interleaving, what an instance was given to put is what it has pushed, in order, and then what it still has to push; an instance back from its calls has pushed exactly what it was given |
| RedisQueue.PushesInOrder | sarracenia/redisqueue.py:224-231 | what one instance pushes is found among all pushes in its order |
| RedisQueue.GetsGive | sarracenia/redisqueue.py:252-281 | over every interleaving, what an instance asked for is what it received unexpired, what its gets were left short of, because the lock was held or the main list was empty or damaged, and what the one under way may still receive |
| RedisQueue.TooSoonIff | sarracenia/redisqueue.py:298-300 | a housekeeping leaves everything as it was if and only if it is asked for before the period since the last one is over |
| RedisQueue.WaitsOnly | sarracenia/redisqueue.py:302-308 | one that finds the lock held waits until it is free and returns without a change |
| RedisQueue.LeavesLeft | sarracenia/redisqueue.py:310-321 | one that finds messages left frees the lock and changes nothing else; one that does not starts with an empty cache, a count of 0 and its own time |
| RedisQueue.StampedBy | sarracenia/redisqueue.py:388-390 | the time of the last housekeeping changes only when one has merged, to the time at which it began |
| RedisQueue.EachCommandCounts | sarracenia/redisqueue.py:224-395 | every command brings an instance nearer its return, but for a housekeeping that waits for the lock |
| RedisQueue.MergesWaiting | sarracenia/redisqueue.py:310-392 | a housekeeping that finds the main list empty and is not interfered with ends, frees the lock and leaves in the main list exactly what the filter keeps of the messages that waited, up to a line that cannot be decoded; that line is gone and what came after it still waits |
| Blocks.TotalWithout | sarracenia/flowcb/block_reassembly.py:104-106 | the sum of the sizes does not depend on the order of visiting the manifest |
| Blocks.TotalDense | sarracenia/flowcb/block_reassembly.py:104-106 | with blocks numbered from 0 the sum of the sizes is the offset past the last block |
| Blocks.BlocksTile | sarracenia/flowcb/block_reassembly.py:186-192 | every position of the file lies in exactly one block |
| Blocks.RemoteOffset | sarracenia/flow/__init__.py:2341-2352 | the loop counting down gives the sum of the sizes before the block |
| Blocks.SeekOffset | sarracenia/flowcb/block_reassembly.py:186-192 | the loop counting up gives the same sum |
| Blocks.SumSizes | sarracenia/flowcb/block_reassembly.py:104-106 | the sum of all sizes, in whatever order the manifest is visited |
| Reassembly.FilledStep | sarracenia/flowcb/block_reassembly.py:161-216 | a block puts its bytes in place and disturbs no block already there, cut or not |
| Reassembly.WaitingStep | sarracenia/flowcb/block_reassembly.py:150-184 | what is awaited after a block is the manifest less what has been received |
| Reassembly.ReceiveStep | sarracenia/flowcb/block_reassembly.py:150-222 | one block, new or repeated, keeps the file, the stored manifest and the stored waiting set in step with what has been received |
| Reassembly.OutcomeStep | sarracenia/flowcb/block_reassembly.py:225-262 | a block completes the version, with the total size, if and only if all have then been received; otherwise it waits for exactly the missing ones |
| Reassembly.ReceiveSome | sarracenia/flowcb/block_reassembly.py:104-262 | the same over any number of blocks in any order, with the length of the file |
| Reassembly.ManifestGrows | sarracenia/flowcb/block_reassembly.py:166-180 | until the version is complete, the stored manifest is the old one overridden by the blocks that have come |
| Reassembly.EverCutIff | sarracenia/flowcb/block_reassembly.py:152-164 | whether the file is cut at some arrival, read off the length and the manifest that were there at the start |
| Reassembly.ReassembledIff | sarracenia/flowcb/block_reassembly.py:152-222 | the file is exactly the source if and only if what was there was no longer than the source, or had no manifest, or had one that at some arrival, overridden by the blocks come so far, stands for more than the source |
| Reassembly.Reassembled | sarracenia/flowcb/block_reassembly.py:104-222 | from no file, a file without manifest or a finished version of any length, blocks fetched by offset and received in any order with repeats give the source exactly |
| Reassembly.ManifestLeft | sarracenia/flowcb/block_reassembly.py:246-262 | once a version is complete nothing is awaited; its manifest is gone if and only if that is configured, and otherwise is the old one overridden by the new |
| Reassembly.SurplusKept | sarracenia/flowcb/block_reassembly.py:153-164 | a concrete file longer than its manifest keeps its tail |
| Reassembly.ForwardedOnce | sarracenia/flowcb/block_reassembly.py:225-262 | for any order of arrival, exactly the block that completes the set is forwarded, with the size of the whole; every other one waits for as many as are missing |
| Reassembly.EveryVersion | sarracenia/flowcb/block_reassembly.py:104-262 | after any number of complete versions, one after the other, the file is the last one |
| BlockManifest.KeysRoundTrip | sarracenia/blockmanifest.py:77-93 | block numbers written as text keys are read back as they were |
| BlockManifest.LoadKeys | sarracenia/blockmanifest.py:86-91 | every key read stands for its number, with a value that some key for it had |
| BlockManifest.BlockManifest.constructor | sarracenia/blockmanifest.py:77-95 | opening reads what was saved, and leaves a blank manifest where there was none |
| BlockManifest.BlockManifest.Get | sarracenia/blockmanifest.py:106-114 | the value set, else the value read, else nothing |
| BlockManifest.BlockManifest.Set | sarracenia/blockmanifest.py:117-123 | the value without its block number is what will be written |
| BlockManifest.BlockManifest.Persist | sarracenia/blockmanifest.py:125-139 | the directory afterwards holds the value set, or what it held |
| BlockManifest.WriteKeys | sarracenia/blockmanifest.py:132-135 | the text written has one decimal key for each number |
| Reassembly.SpillsIff | sarracenia/flowcb/block_reassembly.py:206-216 | what is written of a part file is its beginning and no shorter than the block; it runs over into what follows if and only if the part file is longer than the block and a buffer holds more than the block, which is not empty |
| BlockReassembly.BlockReassembly.CopyBlock | sarracenia/flowcb/block_reassembly.py:206-216 | the copy loop writes the buffers it reads at the offset, and ends |
| BlockReassembly.BlockReassembly.Assemble | sarracenia/flowcb/block_reassembly.py:104-216 | the content of the whole file after cutting, seeking and copying |
| BlockReassembly.BlockReassembly.UpdateHeld | sarracenia/flowcb/block_reassembly.py:149-183 | the record with the block added and no longer awaited |
| BlockReassembly.BlockReassembly.UpdateManifest | sarracenia/flowcb/block_reassembly.py:225-262 | the manifest is saved while blocks are awaited, and afterwards saved or deleted as configured |
| BlockReassembly.BlockReassembly.ReceiveBlock | sarracenia/flowcb/block_reassembly.py:124-262 | one block: the new file, the removed block file, the new manifest, and the outcome |
| BlockReassembly.BlockReassembly.AfterWork | sarracenia/flowcb/block_reassembly.py:90-266 | a pass over the messages: files, manifests and both lists; a missing block file ends it in the middle with the lock held, the ok list not replaced, and the messages handled changed on it; nothing at all when files are written under another name first |
| BlockReassembly.CompletesIff | sarracenia/flowcb/block_reassembly.py:136-219 | a pass deals with all its messages if and only if every block file is there and no two messages name the same one |
| BlockReassembly.TwiceStops | sarracenia/flowcb/block_reassembly.py:136-247 | two messages for one block file: the first is handled and changed where it stands, the second ends the pass |
| BlockReassembly.EachFile | sarracenia/flowcb/block_reassembly.py:97-264 | each file is put together from its own blocks among the messages the pass deals with, whatever else it brings |
| BlockReassembly.Verdict | sarracenia/flowcb/block_reassembly.py:225-264 | each block message the pass deals with makes exactly one list grow, as the earlier blocks of its file decide |
| BlockReassembly.OthersPass | sarracenia/flowcb/block_reassembly.py:97-114 | a message that is no block is passed on as it is, in its place, and touches nothing |
| BlockReassembly.WholeFile | sarracenia/flowcb/block_reassembly.py:97-264 | when the messages a pass deals with bring all blocks of a version, in any order and among others, the file is the source |
| BlockReassembly.OneForwarded | sarracenia/flowcb/block_reassembly.py:225-264 | a pass that brings one version passes on one message, with the size of the whole, and rejects all others |
| Worklist.MaskFromFirst | sarracenia/flow/__init__.py:1082-1117 | the mask that decides is the first one met, or there is none |
| Worklist.DroppedIff | sarracenia/flow/__init__.py:1047-1103 | a message is put on no list if and only if it renames a file whose old name the first mask accepts and whose new name the first mask met refuses |
| Worklist.AcceptedIff | sarracenia/flow/__init__.py:1020-1150 | exactly when a message goes on, and exactly when it is put off as too young |
| Worklist.UnlinkMarkedIff | sarracenia/flow/__init__.py:1119-1135 | exactly the unmatched renames away from an accepted name are marked for removal of the old name |
| Worklist.FilterVerdict | sarracenia/flow/__init__.py:1018-1152 | too old by its publication: refused with 504; else by its file: 410; else, outside a poll, too young by its file: put off as it is; every other refusal is 404; and which fields the filter writes |
| Worklist.FileOpFirst | sarracenia/flow/__init__.py:1814-1950 | the first attempt that does not ask for another decides; after the last the message is put off |
| Worklist.FileOpEnds | sarracenia/flow/__init__.py:1823-1851 | a file operation ends with an entry or goes on to the transfer, and with both exactly for a rename done and not of a link or directory, or a removal of the old name |
| Worklist.RemoveOutcome | sarracenia/flow/__init__.py:1877-1900 | removing a file: refused with 202 where deletions are configured out; otherwise done with 201 if and only if the first attempt removes it, else refused with 500; never put off or tried twice |
| Worklist.LinkOutcome | sarracenia/flow/__init__.py:1920-1942 | making a link: refused with 202 where links are configured out; otherwise done if and only if the first attempt makes it; else a symbolic link is refused with 500 and the target of a hard link transferred |
| Worklist.RenameFileOutcome | sarracenia/flow/__init__.py:1832-1856 | renaming a plain file: one attempt, entered if and only if it succeeds, and the transfer in either case |
| Worklist.RenameHardLinkOutcome | sarracenia/flow/__init__.py:1832-1858 | renaming a hard link: the first success among the attempts allowed is entered and followed by the transfer; without one it is put off |
| Worklist.UnlinkOutcome | sarracenia/flow/__init__.py:1820-1829 | removing the old name of a rename counts as done and is followed by the transfer |
| Worklist.RmdirOutcome | sarracenia/flow/__init__.py:1860-1874 | removing a directory: done if and only if an attempt succeeds, else put off |
| Worklist.MkdirOutcome | sarracenia/flow/__init__.py:1904-1917 | making a directory: done if and only if an attempt succeeds, else put off |
| Worklist.RenameLinkOutcome | sarracenia/flow/__init__.py:1832-1851 | renaming a symbolic link: done if and only if an attempt succeeds, else put off |
| Worklist.RenameDirectoryOutcome | sarracenia/flow/__init__.py:1832-1917 | renaming a directory: done if and only if an attempt renames or makes it |
| Worklist.FetchFirst | sarracenia/flow/__init__.py:2113-2147 | a download is put off if and only if no attempt allowed ends it; otherwise the first that does decides |
| Worklist.TransferDecided | sarracenia/flow/__init__.py:2028-2090 | the checks before a transfer in their order, with the code each refusal reports, and when a file is fetched |
| Worklist.FetchReports | sarracenia/flow/__init__.py:2105-2145 | a download reports 201, a file that is gone 410, one put off nothing |
| Worklist.PrepareDecided | sarracenia/flow/__init__.py:1966-2017 | what a message comes to before its file is looked at: done by somebody else, refused with 422, put off, or on to its operation |
| Worklist.EntriesInOrder | sarracenia/flow/__init__.py:1966-2147 | the entries a message gets, in order: that of the preparation alone, else that of the file operation and then that of the transfer, unless the operation was all |
| Worklist.LandedIs | sarracenia/flow/__init__.py:1803-1950 | an entry reports its code, and where it has none the last report stays |
| Worklist.LandsOnce | sarracenia/flow/__init__.py:1966-2150 | every message downloaded lands on one list, or on the ok list and one more exactly when its rename was done and it went on |
| Worklist.SendFirst | sarracenia/flow/__init__.py:3138-3156 | a send is put off if and only if every send allowed was answered 0; otherwise the first other answer decides and is the last send |
| Worklist.SendingIs | sarracenia/flow/__init__.py:3136-3154 | a message sent is done if and only if the first answer other than 0, among the sends allowed, is above 0; refused if and only if it is below; put off if and only if there is none |
| Worklist.RefusedUnsent | sarracenia/flow/__init__.py:3098-3130 | what is refused before it is sent: without the fields that say where to (422), too large (413), or with an operation configured out (202); removing a directory needs rmdir, delete and mkdir |
| FlowState.Places | sarracenia/flow/__init__.py:1018-1152 | every entry is in exactly one of the five places |
| FlowState.KeptOrGivenUp | sarracenia/flowcb/retry.py:235-247 | the retry limit divides a list into what is kept and what is given up |
| Flow.Consumer.Ack | sarracenia/flowcb/gather/message.py:60-68 | a list is acknowledged message by message, each only while it carries its broker tag |
| Flow.Retry.SetIsRetry | sarracenia/flowcb/retry.py:225-233 | each counter one higher, after the computed fields are removed where asked |
| Flow.Retry.FilterByRetryCount | sarracenia/flowcb/retry.py:235-247 | exactly the messages within the limit are kept, in order |
| Flow.Retry.Gather | sarracenia/flowcb/retry.py:70-98 | what refiltering takes from the queue, counts and gives up |
| Flow.Retry.AfterAccept | sarracenia/flowcb/retry.py:100-130 | how many retries join a batch, which, and what is given up |
| Flow.Retry.AfterWork | sarracenia/flowcb/retry.py:132-167 | failures are counted and queued, and posts waiting are taken as far as there is room |
| Flow.Retry.AfterPost | sarracenia/flowcb/retry.py:169-181 | failed posts are counted and queued |
| Flow.Flow.Gather | sarracenia/flow/__init__.py:1169-1197 | what arrives and what is pulled joins the incoming list |
| Flow.Flow.ApplyMasks | sarracenia/flow/__init__.py:1047-1150 | the verdict of the masks on one message |
| Flow.Flow.SortIncoming | sarracenia/flow/__init__.py:1018-1152 | the filter loop puts each message where its verdict says |
| Flow.Flow.Filter | sarracenia/flow/__init__.py:1007-1166 | the filter with its plugins and acknowledgements |
| Flow.Flow.DoFileOp | sarracenia/flow/__init__.py:1803-1950 | the loop ends, with the entry and the answer that the first decisive attempt gives |
| Flow.Flow.Transfer | sarracenia/flow/__init__.py:2028-2147 | the checks before a transfer and its attempts: one entry |
| Flow.Flow.DownloadOne | sarracenia/flow/__init__.py:1966-2147 | all entries made for one message, in order |
| Flow.Flow.DoDownload | sarracenia/flow/__init__.py:1953-2150 | the incoming list is emptied, and each message is entered as decided |
| Flow.Flow.SendOne | sarracenia/flow/__init__.py:3098-3156 | one entry for a message, and the number of sends it took |
| Flow.Flow.DoSend | sarracenia/flow/__init__.py:3090-3157 | the incoming list is emptied, each message is on exactly one list, and none is sent more often than allowed |
| Flow.Flow.Work | sarracenia/flow/__init__.py:1278-1333 | the work of a pass, the retry plugin and the acknowledgements |
| Flow.Flow.PublishOk | sarracenia/flowcb/post/message.py:41-88 | each message posted stays ok, each other one is failed |
| Flow.Flow.Post | sarracenia/flow/__init__.py:1353-1407 | the lists and the post queue after publishing |
| Flow.Flow.RunPass | sarracenia/flow/__init__.py:594-616 | one pass from gathering to publishing |
| FlowConservation.FilteredLoad | sarracenia/flow/__init__.py:1018-1152 | the filter neither loses nor doubles a message |
| FlowConservation.WorkedLoad | sarracenia/flow/__init__.py:1953-2150 | the work loses nothing, and adds one occurrence of exactly the messages both renamed and downloaded |
| FlowConservation.PassConserves | sarracenia/flow/__init__.py:1007-1407 | over a pass, every message that was there or arrived is in exactly as many places as before; only those renamed and downloaded count once more |
| FlowConservation.PassIdle | sarracenia/flow/__init__.py:1353-1407 | after a pass all four lists are empty |
| FlowConservation.RetriesFillHalf | sarracenia/flowcb/retry.py:112-130 | retries fill a batch to half its size, rounded up, no further, and as far as the queue goes |
| FlowConservation.PostsFill | sarracenia/flowcb/retry.py:147-167 | posts waiting fill the ok list to half a batch, or to a whole one of at most 2 |
| FlowConservation.AckBalance | sarracenia/flow/__init__.py:492-502 | acknowledging a list acknowledges exactly its unacknowledged messages, once each |
| FlowConservation.AckAgain | sarracenia/moth/amq1.py:725-743 | acknowledging again changes nothing |
| FlowConservation.DroppedInPass | sarracenia/flow/__init__.py:1093-1103 | a message is dropped in its pass if and only if the guard of the dropping branch holds for it as it arrived |
| FlowConservation.AckedOnce | sarracenia/flow/__init__.py:1007-1349 | a message that arrives is acknowledged exactly once in its pass, unless the guard of the dropping branch of the filter holds for it, and then not at all |
| FlowConservation.MovedNeverAcked | sarracenia/flow/__init__.py:1054-1103 | a concrete rename that is put on no list and not acknowledged |
| FlowConservation.EndsOnce | sarracenia/flow/__init__.py:1007-1407 | a message that arrives and is not both renamed and downloaded ends in exactly one of the two retry queues, done, rejected, given up or dropped |
| FlowEnds.EndsWhere | sarracenia/flow/__init__.py:1007-1407 | where a message that arrives ends: refused, on no list, queued for another transfer, done or published, queued for another publication, or given up, as the filter, the work, the publication and the retry limit say of it at its positions, whatever else the pass works on |
| FlowConservation.ScrubbedAfresh | sarracenia/flowcb/retry.py:85-93 | a message that is to be filtered again bears no trace of what the filter, the work and the counting wrote into it, and is otherwise unchanged |
| FlowConservation.NoRename | sarracenia/flow/__init__.py:1820-1851 | without renames nothing is doubled |
| FlowConservation.RunConserves | sarracenia/flow/__init__.py:1007-1407 | the account over any run of passes and of housekeepings, which rotate only a queue with nothing left to take, whatever part of it they keep in order |
| FlowConservation.RunAcked | sarracenia/flow/__init__.py:1162-1166 | over any run a message is acknowledged at most as often as it arrived |
| FlowQueues.OutliveAre | sarracenia/diskqueue.py:329-344 | of the messages of a flow that wait, a driver keeps those whose stored form is the first of its key and unexpired |
| FlowQueues.QueueActs | sarracenia/flowcb/retry.py:83-204 | taking from a retry queue of the flow, adding to it and its housekeeping are the take, put and rotation of the FIFO queue that the drivers implement |
| FlowQueues.DriverSteps | sarracenia/flowcb/retry.py:200-204 | the housekeeping of either driver is a step of the runs of the flow, and what it removes was expired or came after one of its key |
| RetryCap.StepFits | sarracenia/flowcb/retry.py:100-181 | every pass and housekeeping keeps the counters of every message ahead of its transfers and publications, with refiltering or without |
| RetryCap.LimitOverRuns | sarracenia/flowcb/retry.py:225-247 | over any run with limit R no message is published more than R + 1 times or transferred more than 1 + R/2 times (with refiltering and R = 1, twice); with refiltering and a larger R none is given up but after a failed publication; without refiltering a message waiting with t transfers behind it counts at least 2t - 1 |
| RetryEnds.TakesFront | sarracenia/flowcb/retry.py:70-167 | a pass takes the front of what is ready in either queue, as far as there is room, and nothing else |
| RetryEnds.RoomIff | sarracenia/flowcb/retry.py:114-161 | there is room if and only if less than half a batch has passed the filter, or with refiltering the pass asks for messages; for posts if and only if less than half a batch, or a whole one of at most 2, is on the ok list |
| RetryEnds.NotTakenIff | sarracenia/flowcb/retry.py:117-161 | a pass leaves what is ready as it is if and only if nothing is, or there is no room |
| RetryEnds.PassTrail | sarracenia/flowcb/retry.py:70-181 | a pass, whatever else it works on, keeps the counter of a message equal to what its takings from the two queues amount to, and gives it up only when that reaches the limit |
| RetryEnds.GivenUpIff | sarracenia/flowcb/retry.py:70-247 | over any run with any other messages, a message that enters once and is not done, rejected or dropped is given up if and only if its takings from the two queues count up to the limit; if not it is in a retry queue or a housekeeping removed it |
| RetryEnds.LimitIs | sarracenia/flowcb/retry.py:225-247 | never taken from the post queue: given up at (R + 1) / 2 takings, if there is a limit and no refiltering or a limit of 1; never from the download queue: given up at R takings from the post queue |
| RetryEnds.BusyStays | sarracenia/flowcb/retry.py:117-119 | over any run in which no pass has room, what is ready in a queue stays so and nothing is taken from it |
| RetryEnds.BusyForever | sarracenia/flowcb/retry.py:114-119 | a batch of 2 and two new messages in every pass: nothing ready is retried in any number of passes, under any limit |
| RetryRounds.FirstFailure | sarracenia/flowcb/retry.py:132-146 | the pass in which a message arrives alone in a receiving flow with empty queues and fails: counted, queued or given up |
| RetryRounds.FailingPass | sarracenia/flowcb/retry.py:70-146 | a later pass of a message alone in a receiving flow: taken from the queue, counted, filtered again where configured, transferred without success, counted again, queued or given up |
| RetryRounds.RoundsAre | sarracenia/flowcb/retry.py:70-146 | a message that always fails, alone in a receiving flow with a housekeeping before each pass: where it is after each, and its counters |
| RetryRounds.RoundsAreRun | sarracenia/flowcb/retry.py:70-204 | such passes and housekeepings are a run of the flow |
| RetryRounds.AloneGivenUpIff | sarracenia/flowcb/retry.py:83-146 | alone in a receiving flow with a housekeeping before each pass, a message whose transfer always fails is given up in the end if and only if there is a limit and either no refiltering or a limit of 1; then after exactly 1 + R/2 transfers, or two |
| RetryRounds.UnpublishedPass | sarracenia/flowcb/retry.py:147-181 | a pass of a receiving flow that takes the only message there is from the post queue and cannot publish it: counted, queued or given up |
| RetryRounds.AlonePostGivenUpIff | sarracenia/flowcb/retry.py:147-181 | alone in a receiving flow with a housekeeping before each pass, a message that can never be published is given up in the end if and only if there is a limit, after exactly R + 1 publications |
| RetryRounds.BusyOrQuiet | sarracenia/flowcb/retry.py:112-119 | one failing file and some limit: given up in a quiet flow, and never taken in a flow that two new files reach in every pass |
| RetryRounds.EndsWhen | sarracenia/flow/__init__.py:1966-2147 | such messages exist: a plain file and a world that always answers so |
| MDelayLatest.Plugin.Compare | sarracenia/flowcb/mdelaylatest.py:51-74 | a message against the delay list: what it replaces, sends out and rejects |
| MDelayLatest.Plugin.AfterAccept | sarracenia/flowcb/mdelaylatest.py:37-106 | the three lists after a batch; after a stop nothing is delayed |
| MDelayLatest.Plugin.Flush | sarracenia/flowcb/mdelaylatest.py:88-101 | messages that are due go out in order, the others stay |
| MDelayLatest.ArriveIsLane | sarracenia/flowcb/mdelaylatest.py:44-84 | an arrival is one step of the life of its own path, and concerns no other |
| MDelayLatest.AcceptIsRelease | sarracenia/flowcb/mdelaylatest.py:88-106 | the end of a batch releases what a path holds or leaves it |
| MDelayLatest.LatestWins | sarracenia/flowcb/mdelaylatest.py:43-106 | over any batches, per path: order is kept, the latest arrival is the last out or held, only a plain update directly followed by a plain update is rejected, and at most one message per path is held |
| MDelayLatest.DelayConserves | sarracenia/flowcb/mdelaylatest.py:43-106 | over any batches, arrivals are exactly what was forwarded, is delayed or was rejected, with multiplicity; after a stop nothing is delayed |
| MDelayLatest.ForwardedYoung | sarracenia/flowcb/mdelaylatest.py:55-64 | a message younger than the delay is forwarded by a batch exactly when it is pushed out by a file operation on its path, or is still held at a stop |
| MDelayLatest.NewForwarded | sarracenia/flowcb/mdelaylatest.py:55-106 | a delay of 30 and a message forwarded as new as it came, because of an operation on its path, and at a stop |
| Amqp1.Connection.OnLinkOpened | sarracenia/moth/amq1.py:263-268 | the credit of a link that opens |
| Amqp1.Connection.OnMessage | sarracenia/moth/amq1.py:213-227 | a delivery gets the next number, is pending on its link and is queued |
| Amqp1.Connection.GetNewMessage | sarracenia/moth/amq1.py:643-711 | one message is taken, or asked to be settled when it does not decode |
| Amqp1.Connection.NewMessages | sarracenia/moth/amq1.py:623-641 | a batch is a prefix of the message queue, smaller than asked for only if the queue is then empty or the next message did not decode, and keeps the invariant |
| Amqp1.Connection.AckMessage | sarracenia/moth/amq1.py:725-747 | the first acknowledgement is passed on, repeated ones are ignored |
| Amqp1.Connection.OnTimerTask | sarracenia/moth/amq1.py:231-261 | the ack queue is drained, one settlement at a time |
| Amqp1.GoodStep | sarracenia/moth/amq1.py:213-261 | every step of either thread keeps credit, tags and queues consistent |
| Amqp1.DrainAllRuns | sarracenia/moth/amq1.py:238-261 | draining the queue is a run of as many single settlements as it has tags |
| Amqp1.FaultyIff | sarracenia/moth/amq1.py:737-747 | a connection counts as faulty if and only if some acknowledgement was queued but reported as failed |
| Amqp1.CleanStepIff | sarracenia/moth/amq1.py:713-747 | a clean connection stays clean in a step if and only if the step is not such a request |
| Amqp1.CreditBalance | sarracenia/moth/amq1.py:213-269 | in every reachable state credit and unsettled deliveries of each link add up to the prefetch |
| Amqp1.InFlightIff | sarracenia/moth/amq1.py:213-255 | the queues and the application hold every unsettled delivery, and hold just as many tags if and only if the connection is clean |
| Amqp1.InFlightBound | sarracenia/moth/amq1.py:213-269 | both queues and the application hold at most prefetch times the links as long as the connection is clean, as it is unless a request failed; and once all credit is used if and only if it is |
| Amqp1.UnsettledBound | sarracenia/moth/amq1.py:213-269 | whatever fails, the tags of unsettled deliveries alone stay within the bound |
| Amqp1.FailedAckOverflows | sarracenia/moth/amq1.py:713-747 | six steps with one failed request that leave two messages in flight for a prefetch of 1 |
| Amqp1.SettledOnce | sarracenia/moth/amq1.py:241-255 | each delivery is settled at most once, only after it was asked for, and an unsettled one can be found |
| Amqp1.EachDeliveryAccounted | sarracenia/moth/amq1.py:224-255 | each delivery so far is either unsettled or settled |
| Amqp1.OrderKept | sarracenia/moth/amq1.py:213-261 | in every reachable state deliveries are taken in the order of arrival, and settled in the order in which that was asked for, what was asked for last being still queued |
| Decimals.ParseDecimal | sarracenia/blockmanifest.py:86-91 | a number written in decimal is read back |
| Decimals.DigitsLess | sarracenia/__init__.py:295-314 | numbers of a fixed width sort as texts as they do as numbers |
| Decimals.StripLess | sarracenia/__init__.py:313 | dropping trailing zeros keeps the order |
| TimeText.YearAdds | sarracenia/__init__.py:323-331 | the formula of POSIX for the days before a year grows by the length of each year |
| TimeText.Together | sarracenia/__init__.py:314-331 | breaking a time down to a date and putting it together undo each other |
| TimeText.EarlierSeconds | sarracenia/__init__.py:314-331 | the date that is earlier field by field has fewer seconds |
| TimeText.RangeEnd | sarracenia/__init__.py:314 | the years up to 9999 are exactly the times before the year 10000 |
| TimeText.FractionReads | sarracenia/__init__.py:313-331 | what a fraction is read back as, and that it is unchanged if and only if it is 0 or at least a ten-thousandth |
| TimeText.TextReads | sarracenia/__init__.py:295-331 | for every time from 1970 to 9999, reading undoes writing if and only if the fraction is 0 or at least a ten-thousandth |
| TimeText.TinyLost | sarracenia/__init__.py:313 | a nanosecond is read back as nothing |
| TimeText.TextOrder | sarracenia/__init__.py:542 | for such times the order of the texts is the order of the times |
| TimeText.TextOrderIff | sarracenia/__init__.py:542 | a time sorts before every later legibly written time if and only if its own fraction is 0 or at least a ten-thousandth |
| TimeText.TinySortsAfter | sarracenia/flow/__init__.py:1537 | a ten-thousandth of a second sorts before every smaller fraction but 0 |
| TimeText.TinyOrder | sarracenia/flow/__init__.py:1537 | a nanosecond sorts after half a second |
| Subscriptions.ScanFacts | sarracenia/config/subscription.py:233-243 | the loop leaves every entry as it was or with the binding added once, and finds the queue if and only if it is there |
| Subscriptions.SubscriptionList.Add | sarracenia/config/subscription.py:229-247 | the list after adding a subscription |
| Subscriptions.Config.ResolveQueueName | sarracenia/config/__init__.py:1889-1965 | the queue name a line resolves to, or that the program stops |
| Subscriptions.FirstResolves | sarracenia/config/__init__.py:1929-1963 | the first line with nothing saved: a saved name is the queue, whatever the template expands to; the program stops if and only if none is saved and it is not the first instance; otherwise the expansion is, or the built-in name |
| Subscriptions.InstancesShare | sarracenia/config/__init__.py:1929-1957 | instances and restarts that read one saved name resolve to one queue |
| Subscriptions.LaterResolves | sarracenia/config/__init__.py:1929 | once there is any subscription the saved name and the instance do not matter |
| Subscriptions.OldNameIs | sarracenia/config/__init__.py:1894-1902 | a saved subscription gives the name if and only if it is the first with the broker and template or with no template, whatever its broker |
| Subscriptions.RestartKeepsQueue | sarracenia/config/__init__.py:1894-1902 | after a restart every template with an entry in the saved list resolves to the queue of that entry |
| Subscriptions.Config.ParseBinding | sarracenia/config/__init__.py:1384-1407 | the list after a line |
| Subscriptions.NewNameIs | sarracenia/config/__init__.py:1904-1909 | a name is found if and only if an entry has the broker and template, and it is the name of one |
| Subscriptions.LineKeeps | sarracenia/config/subscription.py:229-247 | a line keeps queues, templates and bindings distinct |
| Subscriptions.LineBinds | sarracenia/config/__init__.py:1394-1407 | a line's binding is in the entry of the queue it resolved to |
| Subscriptions.AllInOrder | sarracenia/config/__init__.py:1384-1965 | for any lines and any expansions: one entry per queue, one per template, no binding repeated |
| Subscriptions.AllBound | sarracenia/config/__init__.py:1384-1965 | the binding of every line is, in the end, in the entry of the queue it resolved to |
| Subscriptions.KeepsQueueIff | sarracenia/config/__init__.py:1894-1909 | after a line and any further lines, every line with its template resolves to the same queue, whatever it expands to, if and only if the template was known or its name was not taken by another |
| Subscriptions.TwoQueues | sarracenia/config/__init__.py:1951-1953 | a concrete configuration in which one template gets two queues |

## Left out

- DiskQueue: a torn write inside one put, cleanup, and errors of the file system are not modelled; a put is atomic up to its flush.
- RedisQueue: modelled on values, as steps of an interleaving, because several instances share the lists; crashes during a housekeeping and loss of the lock are not modelled.
- Messages of the retry queues always carry a publication time, so the case without any key does not arise; the JSON text of a message is an injective encoding.
- Reassembly: versions of a file do not interleave, block numbers are 0 to n-1, and a part file has the size its manifest gives; with a shorter one the copy loop would not end.
- BlockReassembly: the messages of a pass are different objects. A lock left held by a pass that stopped is not waited for; the number in the name of a block file and in its message agree; where they differ the program stops on a missing field. Locks are correct; a manifest is only written by this plugin.
- BlockManifest: the entries of a manifest are their sizes; other attributes are copied along.
- Flow: one publisher at most, no poll component, no plugin that raises, the retry plugin loaded; messages without a file name and the permission error while comparing an existing file are not modelled.
- Flow: a message put on two lists is one object in the program, so a later report also shows in the first entry; here the entries are two values with one identity.
- Flow: acknowledgements reach the broker connection; field updates, checksums, transfer protocols, metrics and rates are answers of the outside world.
- FlowConservation.RunConserves: holds for a housekeeping that keeps any part of a waiting list in order, so in particular for that of the two drivers, which `FlowQueues` describes.
- DiskQueueFaults: stated of the state before and after a housekeeping; the class `DiskQueue` is proved for messages whose key can be computed, and runs with crashes likewise.
- Amqp1: one connection; reconnects, where the numbering starts again, are not modelled.
- TimeText: times are whole nanoseconds; the rounding of binary floating point is not modelled, and spellings of numbers that the program never writes are refused.
- Subscriptions: settings of a queue other than its name and template, saving, and the conversion of old binding formats.
- Argument parsing, process management, logging, metrics, posting formats, v2 compatibility and the thin plugins: they keep no state from one message to the next, or none that another part relies on.
