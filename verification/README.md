# Message passing driver: model and proofs

The driver gives Linux processes synchronous message passing in the QNX style. A sender blocks on
a channel of another process, a receiver takes the message, and MsgReply or MsgError answers it.
This project models the kernel part in Dafny and proves what its comments and its interface
promise. Where the code departs from that, the code is kept and the exact condition is proved
under which the promise holds.

`dafny verify dfyconfig.toml` checks everything.

## How it is built

- `Protocol.dfy` is a state machine over lock sections, read sections, wake-ups and reference count
  operations. Any number of processes, channels, threads and messages take part, and the steps of
  different threads interleave freely. `ProtocolInv.dfy` states the invariant. The lemmas named
  `Keep...` in `ProtocolSteps.dfy` and `ProtocolTeardown.dfy` are the cases of one induction, one
  for each kind of step; `ProtocolTheorems.Keep` puts them together.
- What holds in every run follows from it: in `ProtocolTheorems.dfy` (places), `ProtocolLaws.dfy`
  (completion, routing, lifetimes, queues), `ProtocolExits.dfy` (returning senders),
  `ProtocolInterrupts.dfy` (interruptions), `ProtocolReplies.dfy` (results), `ProtocolLookup.dfy` (the interrupted sender's search),
  `ProtocolReceivers.dfy` (sleeping receivers), `ProtocolProgress.dfy` (no handler gets stuck) and
  `ProtocolQuiet.dfy` (runs without interruptions). `ProtocolThreads.dfy` says what a step leaves
  alone, and `ProtocolWitness.dfy` builds concrete runs of the code that go wrong.
- `ChannelQueue.dfy` holds the three operations on a waiting list as functions, with the laws about
  its history. The protocol uses these functions, and the classes in `Channel.dfy` and
  `ProcessEntry.dfy`, which keep records, channels and processes in place and loop over their
  lists as the code does, are proved against the same functions.
- `ConnectionTable.dfy` is the slot allocator as a value, and proves that every run of it answers
  like a finite map. `ConnectionTableObject.dfy` is the class with its array, proved against that
  value. `ConnectionTableRcu.dfy` is the same table with concurrent readers, a lock, grace periods
  and memory that is freed.
- `Iovec.dfy` has the gather and scatter loops, and `Msgsend.dfy` the message records, the copies
  of MsgSend, MsgReceive, MsgRead and MsgReply, and what these amount to from end to end.

## Where the code departs from its intent

- An interrupted sender has its loop on FINISHED on the branch where it already owns its record
  (kernel/qnxcomm_driver.c:146-150) and not on the branch where a replier has it (lines 142-145).
  It also returns at once when no process has the receiver's pid (line 140), and a woken sender
  trusts its wake-up (line 114). Whoever completes a record reads from it afterwards whom to wake
  (lines 371 and 426), and a teardown unlinks it after the wake-up (kernel/process_entry.c:80-81).
  The record is on the sender's stack, and gone when the sender is out. `ProtocolExits.HiddenIffGuarded`
  proves, message by message, that nobody can find or touches the record from then on if and only if
  it was completed or taken back, and let go of by everybody, at the step with which its sender got
  out (line 158). `WaitingHides` gives the guard where the sender decides to return. The witnesses are
  `OvertakenTooEarly`, `LeftOnPendingList`, `OtherList`, `LateWakeup`, `TouchedAfterReturn` and
  `ReturnedUnderTeardown` in `ProtocolWitness.dfy`. `ProtocolQuiet.dfy` shows that without timeouts
  and signals all results are right, and that only the teardown can be overtaken.
- A timed MsgSend sleeps in `msleep_interruptible` (lines 92-102), which goes back to sleep after a
  wake-up: a reply does not end it, only the timeout or a signal does. `ProtocolLaws.ReplyEndsWait`
  proves that a reply ends the wait if and only if the message was sent without timeout,
  `TimedNeverWoken` that no timed message ever returns by its wake-up, and in
  `ProtocolWitness.AnsweredAsleep` an answered sender sleeps on with nobody about to wake it.
- The search by pid finds the wrong pending list if the receiver has closed its file, with a poll
  file open, and its pid has opened the device again: `ProtocolLookup.WithdrawsIffOpen` is the exact
  condition, `ProtocolWitness.OtherList` a run. The sender then reports success.
- A sender that was answered reports the interruption if the receiving process has closed
  meanwhile (line 140 has no else branch): `ProtocolWitness.AnsweredButTimedOut`.
- A refused no-reply message still counts as waiting (kernel/channel.c:89-92).
  `ProtocolReceivers.WaitIsExact` says when the condition receivers wait for is exact, and in
  `ProtocolWitness.ReceivesNothingAtOnce` MsgReceive does not wait on an empty queue.
- Growth of a connection table stores at the new capacity (kernel/connection_table.c:119-120),
  where neither retrieve nor remove look. `ConnectionTable.AddUsable`: the coid that add returns
  leads to its connection if and only if a slot was free.
- The downward search for a new `max` (kernel/connection_table.c:152) has no floor. Slot 0 stays
  empty; before it, with eight byte pointers, lies the field `max`, which is not 0 then, so the
  search ends at -1. That layout is part of the model.
- The table is destroyed up to but not including `max` (kernel/connection_table.c:85), so one
  connection stays allocated. This is in the contract of `Destroy`.
- The loop that empties a channel unlinks each record after it was given back
  (kernel/channel.c:52-53). The protocol has the two as separate steps, `CleanQueued` and
  `UnlinkQueued`.
- If the first array of a table cannot be allocated, nothing is reported, and add answers 0.
- Poll and a MsgSendv that fails after its lookup keep a channel reference. The protocol has the
  step `Leak`, and counts are exact once leaked references are included.
- A pulse received into too small a buffer returns what the wait returned
  (kernel/qnxcomm_driver.c:299-315). `ProcessObjects.PositiveIsMessage` says exactly when a positive
  answer is not a message.
- MsgSendNoReply knows no size limit, MsgSendNoReplyv does
  (kernel/internal_msgsend.c:88, 161-193).

## Model

| member | source | states |
|---|---|---|
| ProtocolTheorems.Keep | kernel/qnxcomm_driver.c:81-850 | every step of every thread, of opening, closing and of every round of a teardown keeps the protocol invariant: threads, records, lists, tags, counts and ids agree |
| ProtocolTheorems.Reachable | kernel/qnxcomm_driver.c:81-850 | the invariant holds in every state of every run |
| ProtocolTheorems.WhereFound | kernel/process_entry.c:188-221 | a record can be found on a list or with a thread exactly at the place its history says |
| ProtocolTheorems.OnePlace | kernel/qnxcomm_driver.c:124-133 | in every run each record is in at most one place, no list links it twice, queued means INITIAL, with a receiver RECEIVING, on a pending list or with a replier PENDING, and it is somewhere as long as its sender is inside and nobody took it |
| ProtocolExits.StepRec | kernel/qnxcomm_driver.c:114-154 | completion, withdrawal, freeing and return of a record are final, and only its own sender makes it return |
| ProtocolExits.RunRec | kernel/qnxcomm_driver.c:114-154 | the same from any state of a run to any later one |
| ProtocolExits.AnsweredRun | kernel/qnxcomm_driver.c:106-160 | if a message's own sender does not return blindly before its record is completed, it either withdrew its record and reports an interruption, or reports the status set, never both, whatever other senders do; which interruption is said by `ReportsItsInterruption` |
| ProtocolExits.StaysUntouched | kernel/qnxcomm_driver.c:366-371 | a completed, withdrawn or freed record that everybody has let go of is never touched again |
| ProtocolExits.WaitingRun | kernel/qnxcomm_driver.c:106-160 | a sender that decides to return only when its record is completed and let go of has the right result and leaves a record that nobody touches |
| ProtocolExits.WaitingHides | kernel/qnxcomm_driver.c:106-160 | then nobody finds or touches the record from the moment the sender is out |
| ProtocolExits.UnguardedLeaves | kernel/qnxcomm_driver.c:156-160 | a sender that gets out before its record is completed or taken back, and let go of, leaves it on a list, with a thread, or with somebody about to read or unlink it |
| ProtocolExits.HiddenIffGuarded | kernel/qnxcomm_driver.c:106-160 | for each message, its record is hidden from everybody once its sender is out and the memory gone, if and only if it was completed or taken back, and let go of, at the step with which the sender got out |
| ProtocolExits.CleanIffGuarded | kernel/qnxcomm_driver.c:106-160 | the same for all messages of a run together |
| ProtocolInterrupts.ReportsItsInterruption | kernel/qnxcomm_driver.c:94-160 | a sender that was not woken has only looked for its record since its timeout or a signal interrupted it; if it took its record back or found no receiver it reports exactly that interruption, and a timeout only if it gave one; if it was overtaken it reports the status of that moment |
| ProtocolInterrupts.ReportsTheStatus | kernel/qnxcomm_driver.c:104-116 | a sender that was woken reports the status its record had then |
| ProtocolWitness.OvertakenTooEarly | kernel/qnxcomm_driver.c:142-145 | a run in which a timed out sender is out with status 0 while MsgReply still holds its record |
| ProtocolWitness.LeftOnPendingList | kernel/qnxcomm_driver.c:138-140 | a run in which a returned sender's record stays on the pending list of a process that has closed but is polled |
| ProtocolWitness.AnsweredButTimedOut | kernel/qnxcomm_driver.c:138-154 | a run in which a message is answered with 0 and its sender reports ETIMEDOUT |
| ProtocolWitness.AnsweredAsleep | kernel/qnxcomm_driver.c:92-102 | a run in which a timed message is answered, its sender woken, and asleep again with its answer and no wake-up to come |
| ProtocolWitness.LateWakeup | kernel/qnxcomm_driver.c:104-116 | a run in which a late wake-up ends the next MsgSend, sent without timeout, while its message still waits in the queue |
| ProtocolWitness.TouchedAfterReturn | kernel/qnxcomm_driver.c:421-426 | a run in which the sender is out with the right status while the replier still has to read from the record whom to wake |
| ProtocolWitness.ReturnedUnderTeardown | kernel/process_entry.c:76-82 | a run in which the sender is out with ESRCH while the teardown still has to unlink its record |
| ProtocolWitness.OtherList | kernel/qnxcomm_driver.c:138-144 | a run in which the receiver has closed and opened again, and the interrupted sender misses its pending record and reports success |
| ProtocolWitness.ReceivesNothingAtOnce | kernel/qnxcomm_driver.c:241-264 | a run in which the limit is reached, a message is refused, the queue is drained, and the next MsgReceive answers without waiting |
| ProtocolReplies.CompletedOnce | kernel/qnxcomm_driver.c:366-447 | the status of a completed record was given by exactly one step of the run: a MsgReply or MsgError with that status, a failed MsgReceive with that error, or a teardown with ESRCH |
| ProtocolReplies.ResultIsReply | kernel/qnxcomm_driver.c:112-116 | a sender that was woken, or found its record taken, returns what that step gave, if it did not itself return before completion |
| ProtocolReplies.ReplyIsReported | kernel/qnxcomm_driver.c:112-154 | under the same condition an answered message is reported with its answer, unless its sender was interrupted and found no process under the receiver's pid, which reports the interruption |
| ProtocolReplies.RepliedById | kernel/qnxcomm_driver.c:388-393 | a thread about to store a reply has named the receive id of exactly this record, and done nothing else since |
| ProtocolReplies.Attached | kernel/process_entry.c:325-358 | a coid leads to a connection if and only if this connection was attached last under it and not detached since |
| ProtocolLaws.TakenOnce | kernel/qnxcomm_driver.c:355-456 | of all steps of a run at most one completes or withdraws a record, and at most one frees it |
| ProtocolLaws.PendingById | kernel/process_entry.c:199-221 | a receive id is found on a pending list exactly when a normal message with that id is pending there |
| ProtocolLaws.ReplyAccepted | kernel/qnxcomm_driver.c:392-456 | a thread that may enter a handler can reply to an id exactly when a normal message with that id is pending with its process |
| ProtocolLaws.LateReply | kernel/qnxcomm_driver.c:428-432 | once a message was completed or withdrawn, or if it is a pulse or no-reply message, no process ever finds its id on a pending list again, so every later reply gets ESRCH |
| ProtocolLaws.ReplyRouting | kernel/qnxcomm_driver.c:392-426 | the record a reply takes was never taken before, was sent to the replying process, and only its own sender waits with that id |
| ProtocolLaws.NoLostWakeup | kernel/qnxcomm_driver.c:86-104 | a sender without timeout asleep with a completed record is about to be woken by the thread that completed it |
| ProtocolLaws.ReplyEndsWait | kernel/qnxcomm_driver.c:92-116 | once a message is completed and nobody has its wake-up to do, its blocked sender can return by it if and only if it gave no timeout; with one it can only sleep on or be interrupted |
| ProtocolLaws.TimedNeverWoken | kernel/qnxcomm_driver.c:92-102 | in every run, a message sent with a timeout never returns by being woken |
| ProtocolLaws.Lifetimes | kernel/driver_data.c:96-108 | reference counts of channels and processes cover the list entry and every handler between find and release, so neither is freed while it can be reached |
| ProtocolLaws.NoBlockedSenderTornDown | kernel/channel.c:37-59 | once the count of a channel is zero, no sender that is still inside has its message in the queue |
| ProtocolLaws.MissedTag | kernel/qnxcomm_driver.c:121-135 | an interrupted sender that misses its record in the queue finds it RECEIVING, PENDING or FINISHED |
| ProtocolLaws.QueueLaws | kernel/channel.c:68-127 | in every run each channel that is not torn down is first in, first out over accepted and not withdrawn messages, and its counters are exact |
| ProtocolLaws.RefusedWhenFull | kernel/channel.c:83-98 | in every run, adding a message fails exactly when it is a no-reply message and the channel holds as many of these as the limit allows, and then nothing but the counter changes; any other message joins the end of the queue |
| ProtocolReceivers.NoSleepingReceiver | kernel/channel.c:92-95 | a receiver asleep on a channel that has a message, or whose counter says so, has a thread whose only next step is to wake this wait queue |
| ProtocolReceivers.LeavesOnlyIfEmpty | kernel/qnxcomm_driver.c:241-279 | a receiver gets the first message of the queue, or was stopped by a signal, or found the queue empty, also when its time was over |
| ProtocolReceivers.WaitIsExact | kernel/qnxcomm_driver.c:241-243 | the wait condition never misses a message, and on an empty queue it is false if and only if no earlier attempt on this channel was refused |
| ProtocolLaws.HeapRecordsFreed | kernel/qnxcomm_driver.c:341-349 | when a channel has been freed, every pulse and no-reply record it ever accepted has been freed exactly once |
| ProtocolLaws.Isolation | kernel/qnxcomm_driver.c:516-534 | a process receives on a channel only what was sent through a connection that names the process and the channel, and pending records carry exactly these |
| ProtocolLaws.SentThrough | kernel/qnxcomm_driver.c:516-534 | that connection is the one the sender's table held when it sent; its timeout, its sleeping thread and whether it has an id are those of the call |
| ProtocolLookup.RightList | kernel/qnxcomm_driver.c:142 | an interrupted sender takes its pending record back if and only if the process it found is the one whose list has it |
| ProtocolLookup.FoundIffOpen | kernel/driver_data.c:24-47 | the process it found is the receiver if and only if the receiver's file was open at the lookup |
| ProtocolLookup.WithdrawsIffOpen | kernel/qnxcomm_driver.c:138-142 | so it takes a pending record back if and only if the receiver's file was open at its lookup, the last thing it did |
| ProtocolProgress.NotStuck | kernel/qnxcomm_driver.c:81-456 | every thread inside a handler that does not sleep can move without a timeout, a signal or a failing copy, or is in its busy loop and the receiver it waits for can; a timed sender sleeps until it is interrupted |
| ProtocolProgress.SleepersCanBeStopped | kernel/qnxcomm_driver.c:92-111 | a thread that sleeps can be stopped: a sender by a signal, by a timeout exactly if it gave one, and a receiver by both |
| ProtocolProgress.NoReplyCanGiveUp | kernel/qnxcomm_driver.c:556-574 | a no-reply sender can be stopped by a signal exactly between two tries, which frees its record exactly once; no other sender can be stopped there |
| ProtocolProgress.BusyLoopEnds | kernel/qnxcomm_driver.c:135 | whatever step that receiver takes ends the busy loop |
| ProtocolProgress.EndsSoon | kernel/qnxcomm_driver.c:118-160 | a thread takes no more own steps than its position says until it is out, sleeps or starts over: at most four from an interruption on |
| ProtocolQuiet.UninterruptedResults | kernel/qnxcomm_driver.c:104-116 | as long as no sender is interrupted, a sender that returned was woken, its record is completed, and it reports that status |
| ProtocolQuiet.UninterruptedClean | kernel/qnxcomm_driver.c:104-116 | a run without interruptions shows no record of a sender that is out to anybody, if and only if no sender gets out before the teardown that woke it has unlinked its record |
| ProtocolTeardown.NobodyBlocked | kernel/channel.c:37-59 | a channel without references has no blocked sender in its queue |
| ProtocolSteps.QueuedIsMine | kernel/channel.c:112-121 | the search for its id can only find the sender's own record |
| ProtocolSteps.PendingIsMine | kernel/process_entry.c:205-212 | taking a record off a pending list by its id removes exactly that record |
| ChannelQueue.AddOk | kernel/channel.c:68-98 | adding, accepted or refused, keeps first in first out, both counters exact and the bound on no-reply messages |
| ChannelQueue.RefusedIffFull | kernel/channel.c:83-98 | a message is refused exactly when it is a no-reply message and at least as many of these wait as the limit says |
| ChannelQueue.TakeOk | kernel/qnxcomm_driver.c:266-275 | so does taking the first message |
| ChannelQueue.WithdrawOk | kernel/channel.c:101-127 | so does withdrawing, although it never looks at the no-reply counter |
| ChannelQueue.WithdrawFacts | kernel/channel.c:101-127 | a sender whose id is its own withdraws exactly its record |
| ChannelQueue.KeptWithdraw | kernel/channel.c:112-121 | withdrawing deletes one message from the accepted ones and keeps the order of the others |
| ChannelQueue.WaitingFacts | kernel/channel.c:68-127 | what waits was accepted, waits once, and was never received before |
| ChannelObject.Channel.constructor | kernel/channel.c:19-34 | a new channel has the next id, one reference and an empty queue |
| ChannelObject.Channel.AddNewMessage | kernel/channel.c:68-98 | the list and both counters change as the queue operation says; -1 tells a refusal, of no-reply messages only, exactly when as many of these wait as the limit says |
| ChannelObject.Channel.RemoveMessage | kernel/channel.c:105-127 | the search loop removes the first record with the id, or answers 0 and changes nothing |
| ChannelObject.Channel.TakeFirst | kernel/qnxcomm_driver.c:252-279 | the first record leaves as RECEIVING, and both counters follow |
| ChannelObject.Channel.Release | kernel/channel.c:37-65 | the last reference empties the queue, frees its heap records and answers its senders with ESRCH, any other only counts |
| ProcessObjects.ProcessEntry.constructor | kernel/process_entry.c:28-44 | a new process has one reference, empty lists and a sound empty table |
| ProcessObjects.ProcessEntry.AddPending | kernel/process_entry.c:188-196 | the record becomes PENDING at the head of the list |
| ProcessObjects.ProcessEntry.ReleasePending | kernel/process_entry.c:199-221 | the first record with the id leaves the list, or null is returned and nothing changes |
| ProcessObjects.ProcessEntry.HandleMsgreply | kernel/qnxcomm_driver.c:388-432 | ESRCH without any effect, or exactly one record leaves the list FINISHED and its sender is woken; ENOMEM or EFAULT exactly when a wanted reply cannot be allocated or read, and then the sender is told that and gets no bytes, else it is told the status and gets the reply; no other record changes |
| ProcessObjects.ProcessEntry.HandleMsgerror | kernel/qnxcomm_driver.c:436-456 | the same for an error, which reaches the sender as a non-positive number |
| ProcessObjects.ProcessEntry.HandleMsgread | kernel/qnxcomm_driver.c:460-501 | ESRCH, EINVAL, EFAULT exactly if the bytes cannot be written, or the bytes of the message from the offset to its end or until the buffer is full |
| ProcessObjects.ProcessEntry.AddChannel | kernel/process_entry.c:224-251 | a new channel at the head of the list, or ENOMEM or EMFILE and the same list |
| ProcessObjects.ProcessEntry.FindChannel | kernel/process_entry.c:254-275 | the first channel with the id, with one more reference, and no other count changes |
| ProcessObjects.ProcessEntry.IsChannelAvailable | kernel/process_entry.c:304-322 | true exactly when a channel has the id |
| ProcessObjects.ProcessEntry.RemoveChannel | kernel/process_entry.c:104-131 | the channel leaves the list and loses that reference; if it was the last the channel is torn down, and its senders read ESRCH |
| ProcessObjects.ProcessEntry.Free | kernel/process_entry.c:47-95 | each channel loses one reference, what nobody else holds is torn down, every heap record is freed and every sender woken, in order, with ESRCH in its record and in no other, and every connection is freed but the one `max` names |
| ProcessObjects.ProcessEntry.Release | kernel/process_entry.c:98-101 | the last reference frees the process, any other changes nothing else |
| ProcessObjects.ProcessEntry.Deliver | kernel/qnxcomm_driver.c:287-373 | the taken record is freed, pending, or finished with the failure and its sender woken, and the receiver has its bytes or nothing |
| ProcessObjects.ProcessEntry.HandleMsgreceive | kernel/qnxcomm_driver.c:217-384 | all results of MsgReceive: EFAULT exactly if the copy of the description, of a message, or of a pulse with room failed, 0 exactly for a pulse that was copied or had no room after a wait that answered 0; with what happened to the queue, the record, the pending list, the caller's memory, and no reference left behind |
| ProcessObjects.PositiveIsMessage | kernel/qnxcomm_driver.c:299-339 | a positive answer of MsgReceive is the id of a delivered message if and only if it is not the case that a pulse did not fit and the wait left a positive number |
| ProcessObjects.ProcessEntry.Serve | kernel/qnxcomm_driver.c:217-432 | MsgReceive and MsgReply serve the one message of a queue: its bytes arrive, the reply or its failure is stored, the lookup by id finds it behind older pending messages, and both lists are as before |
| ProcessObjects.ProcessEntry.Exchange | kernel/qnxcomm_driver.c:505-551 | an uninterrupted MsgSend through queue, pending list and lookup by id: the server's memory gets the prefix of the message that fits, the client's memory the prefix of the reply that fits, nothing else changes, and the sender returns the status of the reply; a reply that failed at the server is never reported as success |
| ProcessObjects.DriverData.AddProcess | kernel/driver_data.c:14-21 | the process joins the head of the registry |
| ProcessObjects.DriverData.FindProcess | kernel/driver_data.c:24-47 | the first process with the pid, with one more reference |
| ProcessObjects.DriverData.IsProcessAvailable | kernel/driver_data.c:50-70 | true exactly when a process has the pid |
| ProcessObjects.DriverData.Remove | kernel/driver_data.c:73-93 | the first process with the pid leaves the registry, and nothing else |
| ProcessObjects.DriverData.AddConnection | kernel/process_entry.c:325-352 | ESRCH without such a channel, else what the table answers, and no reference left behind |
| ProcessObjects.DriverData.FindChannel | kernel/driver_data.c:96-108 | one more reference to the channel found, none to its process |
| ConnectionTable.AddOk | kernel/connection_table.c:95-130 | add keeps the table sound: `max` bounds the used slots and names one when positive, slot 0 stays free, the capacity is 64 times a power of two within the limit |
| ConnectionTable.RemoveOk | kernel/connection_table.c:133-170 | so does remove |
| ConnectionTable.LimitGrows | kernel/qnxcomm_driver.c:46-61 | setting the limit never shrinks it, is accepted exactly when it changes it, and keeps every table sound |
| ConnectionTable.AddBinds | kernel/connection_table.c:102-111 | with a free slot, add binds the least free coid from 1 and leaves the others alone |
| ConnectionTable.AddGrows | kernel/connection_table.c:113-122 | without one nothing reachable changes: growth keeps every coid, leaves the new slots empty and answers a coid that neither retrieve nor remove accept |
| ConnectionTable.AddUsable | kernel/connection_table.c:113-122 | a coid that add returned leads to its connection if and only if a slot was free |
| ConnectionTable.GrowthLosesConnection | kernel/connection_table.c:119-120 | a full table of 64 slots answers coid 128, which cannot be used |
| ConnectionTable.RemoveUnbinds | kernel/connection_table.c:133-170 | remove succeeds exactly on bound coids and unbinds that one only |
| ConnectionTable.StepRefines | kernel/connection_table.c:95-198 | each operation answers like a finite map with a capacity and a limit |
| ConnectionTable.RunRefines | kernel/connection_table.c:95-198 | so does every sequence of operations, settings of the limit among them |
| ConnectionTableObject.ConnectionTable.constructor | kernel/connection_table.c:68-78 | an empty sound table, or none if there is no memory |
| ConnectionTableObject.ConnectionTable.Reserve | kernel/connection_table.c:27-62 | the old capacity is answered; the new array holds the old slots, then empty ones, and `max` is 0 |
| ConnectionTableObject.ConnectionTable.Add | kernel/connection_table.c:95-130 | the search loop and the growth do what the operation on the value does |
| ConnectionTableObject.ConnectionTable.Remove | kernel/connection_table.c:133-170 | so do the slot update and the downward search |
| ConnectionTableObject.ConnectionTable.Retrieve | kernel/connection_table.c:173-198 | the connection in the slot, or the pair of zeros |
| ConnectionTableObject.ConnectionTable.IsEmpty | kernel/connection_table.c:201-210 | true exactly when no connection is there, reachable or lost |
| ConnectionTableObject.ConnectionTable.ForEach | kernel/connection_table.c:213-234 | every connection is visited once in ascending order and counted |
| ConnectionTableObject.ConnectionTable.Destroy | kernel/connection_table.c:81-92 | every connection is freed once, in ascending order, but the one `max` names |
| ConnectionTableRcu.Keep | kernel/connection_table.c:26-198 | every step of readers and writers keeps the table, the growing writer, the removers and the readers sound |
| ConnectionTableRcu.NoFreedMemory | kernel/connection_table.c:56-59 | no step of any run reads or frees memory that was freed before |
| ConnectionTableRcu.NothingLeaks | kernel/connection_table.c:56-59 | in every state of every run, an array that is not the table and a connection that was unlinked is freed, or the writer that replaced or unlinked it still waits, and no other connection is freed |
| ConnectionTableRcu.GraceEnds | kernel/connection_table.c:165-167 | a waiting writer frees as soon as the calls that had begun when it started to wait have ended, and not before |
| ConnectionTableRcu.GrowthEnds | kernel/connection_table.c:98-127 | growing keeps other writers out, and gives the lock back after three more steps of which only one waits |
| ConnectionTableRcu.GrowthLoses | kernel/connection_table.c:117-121 | what a growing add stores is in memory and no slot of the table leads to it |
| ConnectionTableRcu.ReadersNeverWait | kernel/connection_table.c:173-198 | a reader can always go on, and is out after at most four own steps, whatever writers do |
| ConnectionTableRcu.Linearizable | kernel/connection_table.c:173-198 | retrieve answers what the table mapped the coid to at some instant of the call, whatever add, remove and growth do meanwhile |
| ConnectionTableRcu.AddRefines | kernel/connection_table.c:102-111 | the concurrent add fills the slot the sequential search finds |
| ConnectionTableRcu.GrowRefines | kernel/connection_table.c:48-56 | publishing a bigger array keeps every slot and adds empty ones |
| ConnectionTableRcu.RemoveRefines | kernel/connection_table.c:158-160 | unlinking empties one slot |
| ConnectionTableRcu.WritersMove | kernel/connection_table.c:98-170 | with the lock free, add fills a slot in place if and only if one is free, growth begins if and only if none is, and remove unlinks exactly what is mapped |
| ConnectionTableRcu.OthersKeep | kernel/connection_table.c:166-195 | no other step changes what the table says |
| Iovec.MemcpyFromIovec | kernel/compatibility.h:31-52 | the loop ends before the last segment is passed, fills the buffer with exactly the first bytes of the segments and advances these, or fails exactly when one of them is not accessible |
| Iovec.MemcpyToIovec | kernel/compatibility.h:11-28 | the same for writing to the segments |
| Iovec.ReachableByAddress | kernel/compatibility.h:11-52 | the loops succeed exactly when each of the first addresses of the segments is accessible, whatever lies behind the last byte |
| Iovec.GatherByAddress | kernel/compatibility.h:31-52 | the bytes gathered are those at these addresses, in order |
| Iovec.GatherIsPrefix | kernel/compatibility.h:31-52 | gathering takes a prefix of the concatenation, empty segments included |
| Iovec.AdvanceMapped | kernel/compatibility.h:44-45 | the remaining length of the segments shrinks by what was moved |
| Iovec.AdvanceIsSuffix | kernel/compatibility.h:44-45 | the advanced segments are the rest of the concatenation |
| Iovec.ScatterFrame | kernel/compatibility.h:11-28 | scattering writes nowhere but into the segments |
| Iovec.ScatterGather | kernel/compatibility.h:11-52 | over disjoint segments, gathering what was scattered gives it back |
| Iovec.ScatterIsCut | kernel/compatibility.h:11-28 | the bytes scattered are the first bytes of the concatenation afterwards |
| Msgsend.IdCounter.Next | kernel/internal_msgsend.c:14-18 | the id is one more than the last one, and is the last one from then on |
| Msgsend.Init | kernel/internal_msgsend.c:132-158 | ENOMEM, EFAULT, or a new record with a new id and the bytes of the buffer |
| Msgsend.InitV | kernel/internal_msgsend.c:21-77 | the same for segments, gathered |
| Msgsend.InitNoReply | kernel/internal_msgsend.c:161-193 | a record that nobody waits for |
| Msgsend.InitNoReplyV | kernel/internal_msgsend.c:80-129 | the same for segments, refused with EINVAL if too long |
| Msgsend.ReceiveCopy | kernel/qnxcomm_driver.c:331-339 | the receiver gets the prefix of the message that fits, and its id |
| Msgsend.StoreReply | kernel/qnxcomm_driver.c:395-422 | it fails exactly when a wanted reply cannot be allocated or read; then the failure is stored as status and no reply, else the status given and the reply |
| Msgsend.StoreError | kernel/qnxcomm_driver.c:441-447 | the error is stored as a non-positive status, without a reply |
| Msgsend.CleanUpList | kernel/internal_msgsend.c:237-251 | who is freed and who is woken, in order, and every sender reads ESRCH |
| Msgsend.TornDownOnce | kernel/internal_msgsend.c:237-251 | each heap record of a torn down list is freed exactly once, no other record is, and every sender is woken |
| Msgsend.CopyBack | kernel/qnxcomm_driver.c:537-544 | the buffer starts with as much of the reply as fits, the rest of the memory is as before |
| Msgsend.CopyBackV | kernel/qnxcomm_driver.c:687-694 | the same over segments |
| EndToEnd.SameRequest | kernel/internal_msgsend.c:21-77 | the record MsgSendv builds from segments carries the same request as the one MsgSend builds from their concatenation |
| EndToEnd.FlatReply | kernel/qnxcomm_driver.c:537-544 | the sender's buffer ends as the reply followed by its old tail, and nothing else changes |
| EndToEnd.VectoredReply | kernel/qnxcomm_driver.c:687-694 | so does the concatenation of disjoint segments |
| EndToEnd.VectoredMeansFlat | kernel/qnxcomm_driver.c:687-694 | the scattered reply is the flat reply cut at the boundaries of the segments |
| EndToEnd.ReadsReassemble | kernel/qnxcomm_driver.c:473-483 | consecutive reads return the message without gap or overlap, as far as their buffers go all together |
| EndToEnd.ReceiveThenRead | kernel/qnxcomm_driver.c:324-339 | what MsgReceive and the reads after it deliver is the prefix of the message that fits into their buffers all together, and it is the whole message exactly when that is enough, and exactly when the next read returns 0 |

## Left out

- Module setup, device nodes, ioctl numbers and dispatch, and the listing in kernel/proc.c: no protocol state.
- The user space library (userspace/userspace.cpp): wrappers around the ioctls.
- Registration of poll files: opening and closing them counts references, and which channel they name is not modelled.
- Copies of the argument structs of a call come first in the code and fail with EFAULT; the model starts after them.
- Wrap-around of the 32 bit counters for ids and channels, and truncation of lengths to `int`: ids and lengths are natural numbers.
- Payload of pulses: a parameter says whether copying it succeeds.
- Lock sections and read sections are atomic, `synchronize_rcu` waits for earlier read sections; spinlocks and barriers themselves are not modelled.
- The retry loop of a refused no-reply sender (kernel/qnxcomm_driver.c:556-574) appears as protocol steps only, since other threads change the channel between two tries.
- Protocol.CanOpenFile: looking up the pid and adding the entry (kernel/qnxcomm_driver.c:794-804) are one step, so two opens of one process at the same time are not covered.
- Protocol.DoFindChan: finding the channel and releasing the process are one step.
- Protocol.DoLeaveOvertaken: missing the record on the pending list and reading the status are one step, at the time of the read; a record that was missed never returns to a pending list.
- Protocol.DoAttach: any pair may be stored under any coid, which covers everything the table does.
- Protocol.DoStopWaiting: a receiver may run out of time or get a signal at any point of its wait, whatever timeout it gave.
- Protocol.DoCleanPending: storing ESRCH and waking the sender are one step, and so in `DoCleanQueued`; unlinking the record is another.
- Protocol.DoWake: reading a record after its sender has returned gives what it held; what else its memory may hold by then is not modelled.
- Protocol.DoBeginSend: addresses of records are not used again; building the record and reading the connection are one step.
- ProtocolReceivers.NoSleepingReceiver: poll files wait on the same queue and are not among the sleepers.
- ProtocolProgress.NotStuck: is about steps being possible; fairness of the scheduler is not modelled.
- Msgsend.CopyBackV: says nothing about the memory if a segment is not accessible, when the segments before it have been written.
- Msgsend.InitV: the two kernel buffers are allocated together or not at all.
- ProcessObjects.DriverData.FindChannel: requires that the registry holds a reference to each of its processes, so releasing the one just found never frees it; teardown by a release in that place is a protocol matter.
- ProcessObjects.ProcessEntry.HandleMsgreceive: takes the result of the wait as a parameter and is one uninterrupted call; its interleavings are in the protocol.
- ConnectionTableRcu.Linearizable: the arrays there have no extra slot, so the connection that a growing add loses is stored nowhere.
