# Verified model of Celo VPN's concurrent and protocol code

This project models the parts of the Celo VPN client and its privileged service in which correctness depends on order,
sharing or byte layout, and proves what they promise. Each module names the source file it models.

- `LockProtocol`, `LockSafety`, `LockTheorems`, `LockOutcomes`: the readers/writer lock that processes build from named
  kernel mutexes. One step is one kernel call of one process; any number of processes interleave and may crash
  anywhere. A mutex is an owner, a recursion depth and the processes that have it open; it exists while somebody has.
  `LockedFile` is lock() and unlock() statement by statement, on a kernel in which the others run between any two
  calls; each of its kernel calls is a step of the protocol, so the theorems hold of it. `LocalPeer` is the
  single-instance election, `PeerMessage` the message a second instance leaves with the first.
- `ServiceProtocol`, `ServiceSafety`, `ServiceTheorems`, `ServiceStatus`: how a Windows service starts and answers its
  control handler: the main thread, the dispatcher, serviceMain and any number of handler calls, over two semaphores, a
  mutex, a condition variable and an event queue.
- `StunProbe`: the walk over 263 servers with a stride taken from a 64-bit seed, and why it misses none. `Numbers` has
  the division facts it shares with `Settings`.
- `StunCodec`, `StunParser`, `StunWriter`, `StunResponder`, `StunWire`: attributes of STUN messages (RFC 3489, sections
  11.1, 11.2 and 11.2.1) as pure functions; the parser that clears the buffer it reads; the writer; a whole bind request
  and reply, which the code contains under `STUN_BINDREQ_PROCESS`; and the messages byte by byte.
- `PingPool`, `Servers`, `Settings`, `RetryLoop`: AuthManager's five-worker ping scheduler, the name index, the choice
  of a server, selecting a server again, and the loop over ports or nodes after timeouts.
- `VpnTemplates`, `VpnNotify`, `VpnManager`, `VpnEffects`, `VpnTheorems`, `VpnRuns`, `VpnUrls`, `VpnWitnesses`,
  `VpnService`: the service's connection state, the clients that mirror it, and the templates that arrive late. The
  events are functions on a state, with what each does to its fields, theorems over all their runs, and runs that show
  what can happen; `VpnService` has the handlers as methods of an object that remembers its run, so that each handler is
  a step and promises what the theorems say.
- `Framing`, `Quoting`: commands in a stream that arrives in pieces, and text inside quoted commands. `Common` has
  what several modules use.

Protocols are transition systems; what the operating system, the network, the clock and rand() decide is a parameter
of the step. Code that works on an object or a buffer is a class or a method with loops, tied to a function about
which the properties are proved.

## What turned out not to hold

- A handler call is woken by any wakeAll. It returns with its own event handled exactly if nothing was pending when it
  posted (`ServiceTheorems.ServedIffNothingPending`). If a control reaches a service before it has reported that it is
  running, it can therefore report RUNNING before start() is called (`ServiceTheorems.RunningTooEarly`). Windows
  normally holds such controls back, and then this cannot happen (`ServiceTheorems.ReportsAfterStart`).
- The bind reply loses the address, without any error, for user names of 988 to 999 bytes
  (`StunResponder.AddressFits`, `StunResponder.BindExchange`).
- What a CRLF stream makes the service do depends on how it is split into reads, exactly if a command follows an empty
  one in it (`Framing.SplitsAgreeIff`, `Framing.EmptyCommandDelays`); such commands wait for the next read
  (`Framing.WaitingIff`), and nothing is lost (`Framing.NothingIsLost`).
- stop() inside a read of the management socket does not end the parsing of the read, so a later line can undo it:
  `VpnRuns.StopUndoneIff` says exactly which, and in `VpnWitnesses.StopUndone` the manager stays Connecting with
  nothing left that could end that but the user.
- A template that arrives after stop() starts the state timer while Disconnected (`VpnTheorems.OnlyStaleBreaksTimer`,
  `VpnTheorems.TimerRun`), and stop() then leaves it running (`VpnNotify.StopEnds`, `VpnWitnesses.TimerOutlivesStop`).
- A client accepted while the service is not Disconnected reports Disconnected until the next change
  (`VpnTheorems.StatusIsCurrentIff`, `VpnWitnesses.NewcomerIsWrong`).
- A failed bind moves port 1194 or 53 into the class of all other ports, while the URL stays. A late template can then
  end up in the config file of a start with another URL: `VpnUrls.UrlIsForeignIff` and `VpnUrls.ForeignArrivalIff` say
  exactly when, and `VpnWitnesses.ForeignUrl` is such a run. Without failed binds it cannot happen for the ports a
  client uses (`VpnUrls.UnmovedUrlIsOwn`).
- A jump can end at an index that is no server, if an earlier login had more servers than the list has now
  (`Servers.IdsValidIff`, `Servers.AlwaysValidIff`, `Servers.JumpAfterLogins`).
- A CONNECTED word that repeats the previous word is ignored, also for a new connection (`VpnTheorems.ConnectedWord`,
  `VpnWitnesses.SecondConnectionIgnored`), and the mark against repeated tunnel errors is cleared by the restart it
  guards (`VpnTheorems.TunErrorIsForgotten`).
- The ids of a later login are added to those of the earlier ones, so the loop over nodes misses every server behind
  the first repeated id (`Settings.VisitedIff`, `RetryLoop.NodeTriedIff`): started at a server of the first login it
  tries exactly the servers of the first login (`RetryLoop.OldServersOnly`).
- loadProtocol() stores neither the protocol it has checked nor the one it has drawn
  (`Settings.Setting.LoadProtocol`).
- A message between instances is acknowledged although it is incomplete, if its sender falls silent or goes away and
  no read fails (`PeerMessage.SilenceIsAcknowledged`, `PeerMessage.DeliveredIff`).
- EscapePsw leaves newlines alone, so a user name or password with one is not a single command (`Quoting.OneLineIff`).
- Keys of negative server ids are not taken apart correctly (`VpnTemplates.KeyIsInverted`).

## Model

| member | source | states |
|---|---|---|
| LockSafety.RunKeepsInv | src/celovpn/qtlockedfile_win.cpp:104-211 | in every run of any number of processes, crashes included, mutex owners, open handles, lock modes and program points fit together: a process owns exactly the mutexes its place in lock()/unlock() says, every owned mutex is open, and owners of different slots differ |
| LockTheorems.Exclusion | src/celovpn/qtlockedfile_win.cpp:104-203 | while one process has the write lock no other process has the lock in any mode, in every interleaving and after any crashes; it owns all the mutexes there are owners of |
| LockTheorems.ReadersHaveOwnSlots | src/celovpn/qtlockedfile_win.cpp:126-150 | two processes that have read locks own different slot mutexes |
| LockTheorems.CrashReleases | src/celovpn/qtlockedfile_win.cpp:205-211 | a crash frees exactly the mutexes the process owned and takes no lock from anybody else |
| LockTheorems.LockReturns | src/celovpn/qtlockedfile_win.cpp:109-174 | a lock() call returns true if and only if the process then has the lock, in the mode of the part of lock() it went through; a failed wait for the write mutex returns false |
| LockTheorems.NewSlotIsFree | src/celovpn/qtlockedfile_win.cpp:140-144 | a slot that a reader creates under the write mutex has no owner, so the wait on it never fails |
| LockTheorems.HandleAccounting | src/celovpn/qtlockedfile_win.cpp:154-159 | outside lock() and unlock() a process has the write mutex open at most once and besides it 0, 1 or the number of rmutexes slot handles, by its lock mode; rmutexes is empty whenever a writer starts to enumerate, so the assertion there holds |
| LockTheorems.ScanHasBegun | src/celovpn/qtlockedfile_win.cpp:123-134 | a reader's scan began at a step at which it took the write mutex, and the slot owners it recorded are those of that step |
| LockTheorems.TooManyReaders | src/celovpn/qtlockedfile_win.cpp:135-139 | "too many readers" is reported only if, when the scan began, all MAX_READERS slots had owners, pairwise different and none of them the caller |
| LockTheorems.WaiterOwnsNothing | src/celovpn/qtlockedfile_win.cpp:117-124 | a process that waits for the write mutex owns no mutex of the lock: upgrades and downgrades let go first |
| LockTheorems.SlotOwnerIsReader | src/celovpn/qtlockedfile_win.cpp:160-163 | while one process holds the write mutex, whoever owns a slot is a reader that has the lock or is releasing it, and so waits for nothing |
| LockTheorems.SlotOwnersShrink | src/celovpn/qtlockedfile_win.cpp:154-163 | while a process holds the write mutex no step of another process gives any slot an owner |
| LockTheorems.NoDeadlock | src/celovpn/qtlockedfile_win.cpp:104-203 | if some process is inside a call and no process outside has the lock, some process inside a call can make its next kernel call |
| LockTheorems.CallsShrink | src/celovpn/qtlockedfile_win.cpp:104-203 | every kernel call strictly lowers the number of kernel calls the call has still to make |
| LockTheorems.CallsAreBounded | src/celovpn/qtlockedfile_win.cpp:104-203 | lock() makes at most 5 * MAX_READERS + 7 kernel calls and unlock() at most 2 * MAX_READERS + 1 |
| LockOutcomes.LockFailsIff | src/celovpn/qtlockedfile_win.cpp:104-174 | in every run: a call of lock() is bound to return false if and only if, since it began, the file was not open, the system refused to create the write mutex or a slot, a non-blocking wait met a mutex of another process, all 64 slots had been tried in vain, or an abandoned slot was reported by a code that is read as failure |
| LockOutcomes.ReturnsFalseIff | src/celovpn/qtlockedfile_win.cpp:104-174 | so a call that has returned has returned false exactly if one of these has occurred |
| LockOutcomes.LockSucceedsAlone | src/celovpn/qtlockedfile_win.cpp:104-174 | from every reachable state in which nobody owns a mutex, a process in no call that has the file open gets the lock in either mode, blocking or not, when its kernel calls come next and succeed |
| LockedFile.CallMoves | src/celovpn/qtlockedfile_win.cpp:53-100 | which program points and field values a kernel call can lead to, for every kernel call of lock() and unlock() |
| LockedFile.Kernel.Call | src/celovpn/qtlockedfile_win.cpp:85-100 | a kernel call is one step of the protocol after any steps of others; only the unbounded waits can fail to end |
| LockedFile.QtLockedFile.Lock | src/celovpn/qtlockedfile_win.cpp:104-174 | lock(), with other processes running between its kernel calls: true exactly with the lock in the wanted mode, false with nothing held, and false exactly if one of the causes of a failure has occurred since it was called; after true for WriteLock no other process has the lock; if it does not return, it waits for the write mutex or for the slots |
| LockedFile.QtLockedFile.Unlock | src/celovpn/qtlockedfile_win.cpp:177-203 | unlock() succeeds exactly on an open file and leaves no lock; the fields and the kernel agree |
| LockedFile.QtLockedFile.LetGo | src/celovpn/qtlockedfile_win.cpp:187-202 | the releasing part of unlock() releases and closes the slot, or every slot and then the write mutex, and forgets them |
| LockedFile.QtLockedFile.FindSlot | src/celovpn/qtlockedfile_win.cpp:127-133 | the scan ends owning the slot it opened, at the first slot that does not exist, or past the last slot with every handle closed again |
| LockedFile.QtLockedFile.LockForReading | src/celovpn/qtlockedfile_win.cpp:126-152 | the reader part ends with the write mutex released, and with a slot owned exactly if it succeeds |
| LockedFile.QtLockedFile.LockForWriting | src/celovpn/qtlockedfile_win.cpp:153-174 | the writer part ends with the write lock, or with every handle and mutex given back, or waiting for the slots |
| LocalPeer.PeersStayOk | src/celovpn/qtlocalpeer.cpp:113-133 | processes that lock only through isClient() are never readers and never see a slot |
| LocalPeer.PrimaryStays | src/celovpn/qtlocalpeer.cpp:113-119 | a process for which isClient() has returned false stays the primary instance as long as it lives |
| LocalPeer.SingleInstance | src/celovpn/qtlocalpeer.cpp:113-133 | at most one living process has had isClient() return false |
| LocalPeer.ElectionIsFair | src/celovpn/qtlocalpeer.cpp:118-119 | a process is turned away only if the write mutex cannot be created for it, or while another one is primary or has just won the write mutex; and a process that won it becomes primary without another wait |
| LocalPeer.FirstPeer | src/celovpn/qtlocalpeer.cpp:113-133 | when nobody owns a mutex, the process whose isClient() runs next, with the file open and its kernel calls succeeding, becomes the primary instance |
| PeerMessage.HeaderBytes | src/celovpn/qtlocalpeer.cpp:157-181 | the four bytes of the header are the digits of the length to the base 256, the highest first, and reading them gives the length |
| PeerMessage.ReceiveConnection | src/celovpn/qtlocalpeer.cpp:179-204 | whatever arrives in whatever pieces: the message has the announced length, everything that arrived in time is in place, and it is refused exactly if the first read failed, or a later one before it was complete; a wait that ends by time, disconnect or error refuses nothing |
| PeerMessage.Delivered | src/celovpn/qtlocalpeer.cpp:157-204 | a sent message is delivered as it was sent however it is split, once all of it has arrived, exactly if the first read does not fail |
| PeerMessage.SilenceIsAcknowledged | src/celovpn/qtlocalpeer.cpp:185-204 | a sender that falls silent or goes away in the middle is acknowledged all the same, and only the part that arrived is what was sent |
| PeerMessage.DeliveredIff | src/celovpn/qtlocalpeer.cpp:185-204 | a message is acknowledged exactly if the first read did not fail and it arrived completely or no read failed |
| ServiceSafety.RunKeepsInv | src/common/qtservice/qtservice_win.cpp:557-860 | in every interleaving mutex holders, start semaphores, arguments, event queue and waiting calls fit together |
| ServiceTheorems.ArgsAreComplete | src/common/qtservice/qtservice_win.cpp:566-569 | when the main thread copies the arguments, serviceMain has appended them all |
| ServiceTheorems.AppNeedsService | src/common/qtservice/qtservice_win.cpp:829-847 | an application exists only if serviceMain ran rather than the dispatcher failing, and was created with all arguments |
| ServiceTheorems.RefusedMeansNoApp | src/common/qtservice/qtservice_win.cpp:736-746 | if the dispatcher fails there is never an application, no serviceMain and no handler call, and start() reports success only to the console |
| ServiceTheorems.PostsHaveReceiver | src/common/qtservice/qtservice_win.cpp:858-860 | no handler call exists before controllerHandler is set, or while it is not, until start() has returned |
| ServiceTheorems.NoLostWakeup | src/common/qtservice/qtservice_win.cpp:590-671 | while controllerHandler exists, the very event a waiting handler call posted is still queued, or the main thread has it with its wakeAll still to come; for any number of overlapping calls |
| ServiceTheorems.OnlyWakeAllWakes | src/common/qtservice/qtservice_win.cpp:614-616 | a step ends a wait if and only if it is wakeAll |
| ServiceTheorems.WaitIsShort | src/common/qtservice/qtservice_win.cpp:590-617 | however the other threads run, a call waits for at most four steps of the main thread |
| ServiceTheorems.SomebodyMoves | src/common/qtservice/qtservice_win.cpp:590-671 | while a call waits and the event loop runs, the main thread or the holder of the mutex can go on |
| ServiceTheorems.HolderLetsGo | src/common/qtservice/qtservice_win.cpp:624-671 | a handler call that holds the mutex is never blocked and lets go within three steps |
| ServiceTheorems.StrandedForEver | src/common/qtservice/qtservice_win.cpp:862-868 | a call that still waits when the event loop has ended waits for ever |
| ServiceTheorems.ServedIffAlone | src/common/qtservice/qtservice_win.cpp:614-616 | a call woken by wakeAll has had its own event handled if and only if it found nothing pending when it posted |
| ServiceTheorems.ServedIffNothingPending | src/common/qtservice/qtservice_win.cpp:624-671 | the same between two points of a run: posting at step j and woken at step i, its event is handled by then exactly if no event was pending at step j |
| ServiceTheorems.ReportsAfterStart | src/common/qtservice/qtservice_win.cpp:590-671 | if Windows passes no control on before the service has reported that it is running, anything but Stopped and StartPending is reported only after the main thread has called start(), in every interleaving |
| ServiceTheorems.RunningTooEarly | src/common/qtservice/qtservice_win.cpp:626-631 | without that restriction: a reachable state in which the service has set SERVICE_RUNNING although start() was never called, and can leave its event loop like that |
| ServiceStatus.StatusTable | src/common/qtservice/qtservice_win.cpp:624-671 | what each step of each thread does to the reported status: START, STOP, PAUSE and CONTINUE_PENDING exactly when a handler call with code 256, 1, 2 or 3 enters, RUNNING exactly when one with 256 or 3 resumes, PAUSED exactly when one with 2 does, STOPPED exactly by the main thread behind its loop, and nothing else changes it |
| ServiceStatus.StopLasts | src/common/qtservice/qtservice_win.cpp:632-637 | in every run: when a stop has been accepted and no other call has a status to set, then or later, the status stays STOP_PENDING until the main thread has left its loop, and STOPPED from then on |
| ServiceStatus.WhatIsPosted | src/common/qtservice/qtservice_win.cpp:624-671 | a control is posted under its own code, a shutdown as a stop; all codes but 1, 2, 3, 5, 128 to 255 and the startup leave without posting; the main thread takes the events in order, and nothing else touches them until start() returns |
| ServiceStatus.WholeLife | src/common/qtservice/qtservice_win.cpp:557-868 | a run through a whole life: started, RUNNING, asked to stop, STOP_PENDING, STOPPED, and start() returns true |
| StunProbe.FixpointAfterEight | src/celovpn/stun.cpp:541-544 | after eight rounds every seed has become 2^64 - 1, which is 103 modulo 263 |
| StunProbe.ChooseStride | src/celovpn/stun.cpp:541-544 | the stride loop ends within eight rounds for every seed, with the first mixed seed that 263 does not divide |
| StunProbe.Prime | src/celovpn/stun.cpp:65 | the number of servers is prime, as its declaration demands |
| StunProbe.MixIsShift | src/celovpn/stun.cpp:542 | for every 64-bit word, the shift by eight bits and the or of the top byte are the division and the addition by which the model mixes the seed |
| StunProbe.SameServer | src/celovpn/stun.cpp:548-549 | two attempts ask the same server if and only if their distance is a multiple of 263 |
| StunProbe.EveryServerOnce | src/celovpn/stun.cpp:548-549 | any 263 consecutive attempts ask every server exactly once |
| StunProbe.HowOften | src/celovpn/stun.cpp:538-549 | the 525 attempts ask every server twice, except the one at the low 16 bits of the seed modulo 263, which is asked once |
| StunProbe.GetExternalIpByStun | src/celovpn/stun.cpp:536-558 | returns the number of the first attempt with a non-negative return code, or -1 if all 525 fail |
| StunProbe.SearchIsComplete | src/celovpn/stun.cpp:536-558 | against a fixed set of answering servers the result is -1 exactly if the set is empty, and otherwise at most 263 |
| StunCodec.DecodeEncode | src/celovpn/stun.cpp:391-414 | reading attributes that were written gives them back in order, and what follows is read as on its own |
| StunCodec.EncodeDecode | src/celovpn/stun.cpp:391-414 | writing what was read gives back exactly the bytes that were consumed |
| StunCodec.LastMappedWins | src/celovpn/stun.cpp:434-445 | the last MAPPED-ADDRESS of length 8 decides; without one the address stays |
| StunCodec.FramingSurvives | src/celovpn/stun.cpp:408-421 | zeroing type fields and writing the NUL changes no later framing: a second reading finds the same values and stops the same way |
| StunCodec.ValuesAreTerminated | src/celovpn/stun.cpp:408-421 | every attribute value is followed by a zero byte when the parser is done |
| StunParser.GetMapped | src/celovpn/stun.cpp:434-445 | the callback keeps port and address of a MAPPED-ADDRESS of length 8 and ignores everything else |
| StunParser.ParseAttributes | src/celovpn/stun.cpp:391-414 | the loop over the attributes ends, stays inside the received bytes, and has delivered the decoded attributes in order |
| StunParser.HandlePacket | src/celovpn/stun.cpp:370-431 | refines the decoder on the original bytes: return code -20, -21, -22 or the length, the address of the last MAPPED-ADDRESS, and a buffer in which only type fields and one byte behind the read attributes changed, inside the buffer |
| StunWire.ByteOrder | src/celovpn/stun.cpp:387-400 | the most significant byte of a 16-bit field comes first |
| StunWire.BodyBytes | src/celovpn/stun.cpp:381-389 | behind the header as many bytes count as bytes 2 and 3 announce, and no more than were received |
| StunWire.RefusedBytes | src/celovpn/stun.cpp:378-405 | byte for byte: less than 20 bytes give -20, 1 to 3 bytes left over -21, and an attribute that is longer than what is left -22 |
| StunWire.ResponseIsRead | src/celovpn/stun.cpp:370-445 | byte for byte: a bind response 01 01 00 0c, any id, 00 01 00 08 00 01, any port and address gives 32, and exactly this port and address are stored |
| StunWriter.Message.AppendString | src/celovpn/ministun.c:187-198 | appends the attribute with its 16-bit type if more than its size is left, otherwise changes nothing; len + left stays constant and all other bytes are kept |
| StunWriter.Message.AppendAddress | src/celovpn/ministun.c:201-217 | the same for an address attribute of eight bytes |
| StunWire.AttrIs | src/celovpn/ministun.c:187-217 | byte for byte: an attribute is its type and its length, high byte first, and its value |
| StunResponder.ReadRequest | src/celovpn/ministun.c:282-306 | the request loop delivers the attributes as the parser does and keeps the place of the last USERNAME, whose value stays intact and terminated |
| StunResponder.LastNameWins | src/celovpn/ministun.c:282-306 | the last attribute of type 6 is the user name; without one there is none |
| StunResponder.PacketIsRead | src/celovpn/ministun.c:255-306 | parsing a finished message delivers exactly the attributes that were written, with nothing left over |
| StunResponder.AddressFits | src/celovpn/ministun.c:335-337 | the reply carries the sender's address unless the user name has 988 to 999 bytes: then the name still fits and the address silently does not |
| StunResponder.Respond | src/celovpn/ministun.c:320-340 | the reply has the request's transaction id, type BINDRESP, its exact length, and what fits of name and address |
| StunResponder.HandleRequest | src/celovpn/ministun.c:255-352 | a well-formed bind request is answered with the C string of its last USERNAME, although the buffer was changed while reading; everything else is not answered; -1 for a runt |
| StunResponder.AnswerLeadsBack | src/celovpn/ministun.c:320-342 | every bind request is answered under its own id by a message that reads back completely and carries the sender's address, except for user names of 988 to 999 bytes |
| StunResponder.Ask | src/celovpn/ministun.c:397-407 | the request that goes out consists of the header and the user name if it fits |
| StunWire.RequestBytes | src/celovpn/ministun.c:397-407 | byte for byte: the request is 00 01, its length, the id, and the user name as an attribute of type 6 if it has up to 999 bytes |
| StunWire.ReplyBytes | src/celovpn/ministun.c:320-340 | byte for byte: the reply is 01 01, its length, the id, a user name of up to 999 bytes, and 00 01 00 08 00 01 with port and address unless the name has 988 to 999 bytes |
| StunWire.PlainExchange | src/celovpn/ministun.c:255-352 | byte for byte: a request 00 01 00 00 with any id is answered by 01 01 00 0c, that id, 00 01 00 08 00 01 and the address it came from |
| StunResponder.BindExchange | src/celovpn/ministun.c:320-407 | request, reply and parsing together: the client learns the address it was seen under, except with user names of 988 to 999 bytes |
| PingPool.PingScheduler.PingAllServers | src/celovpn/authmanager.cpp:378-400 | fills in the missing pings as unknown, queues all servers behind those still queued, creates the workers if there are none, and starts them in order while servers are left |
| PingPool.FirstRound | src/celovpn/authmanager.cpp:378-400 | the first call starts exactly min(5, n) workers, on the first servers, and queues the others in order |
| PingPool.LaterRound | src/celovpn/authmanager.cpp:378-400 | any later call: known pings are kept and the others are -1, the queue is the old one and then all servers, and the first min(5, length) workers take the servers at its head whatever they were doing, the others staying as they are |
| PingPool.EventEffect | src/celovpn/authmanager.cpp:402-469 | what one event of a worker changes and what not: the ping of the server it held, then its next server and its timer, or, with an empty queue, the flag that the pings are loaded; the timer is left on only by the timeout itself |
| PingPool.PingScheduler.StartWorker | src/celovpn/authmanager.cpp:402-439 | takes the next server from the queue for this worker, or notes that the queue is empty |
| PingPool.PingScheduler.PingComplete | src/celovpn/authmanager.cpp:441-449 | stores the result for the server the worker holds and moves the worker on |
| PingPool.PingScheduler.PingError | src/celovpn/authmanager.cpp:451-459 | the same after an error |
| PingPool.PingScheduler.PingTerminated | src/celovpn/authmanager.cpp:461-469 | the same after a timeout |
| PingPool.RoundOk | src/celovpn/authmanager.cpp:378-469 | in every round, whatever fires in whatever order: exactly the first min(5, n) workers are started, they hold pairwise different servers already dequeued, and the queue is the rest in order |
| PingPool.DequeuedInOrder | src/celovpn/authmanager.cpp:396-409 | servers leave the queue in order and once each, and at most n - min(5, n) events find one |
| PingPool.OneHolder | src/celovpn/authmanager.cpp:402-409 | a server belongs to one worker for the whole round |
| PingPool.NothingForgotten | src/celovpn/authmanager.cpp:402-469 | every dequeued server is held now or has had a result stored by the worker that held it |
| PingPool.PingIsLastResult | src/celovpn/authmanager.cpp:441-469 | a ping is what the server's own worker reported last, or -1 |
| PingPool.RoundCompletes | src/celovpn/authmanager.cpp:402-469 | when the queue is empty and every worker has reported on what it holds, every server has been reported on |
| PingPool.TimerGuards | src/celovpn/authmanager.cpp:429-433 | a ping nobody has reported on yet has its timer started |
| PingPool.LoadedMeansDrained | src/celovpn/authmanager.cpp:434-438 | mPingsLoaded is set exactly if some event found the queue empty |
| Servers.IndexIsSearch | src/celovpn/authmanager.cpp:190-193 | the map filled by insert holds for every name the smallest index with that name |
| Servers.AuthManager.ServerIxFromName | src/celovpn/authmanager.cpp:187-198 | the lazily built index answers as a linear search does: the smallest index with that name, or -1 |
| Servers.AuthManager.ProcessServers | src/celovpn/authmanager.cpp:310-365 | a new list replaces the servers and invalidates the name index, while its ids are appended to those of all earlier logins, in all three id lists alike |
| Servers.AuthManager.CurrentEncryptionServers | src/celovpn/authmanager.cpp:174-185 | the TCP and the UDP list are the same: the ids of all logins one after the other |
| Servers.AuthManager.GetPings | src/celovpn/authmanager.cpp:479-495 | the cached ping of each id, -1 where there is none |
| Servers.AuthManager.GetServerToJump | src/celovpn/authmanager.cpp:503-551 | -1 without servers; another id than the previous one if there is any, else any index; with known pings, the candidate whose rank is the draw modulo min(20, count) |
| Servers.JumpIsValid | src/celovpn/authmanager.cpp:503-551 | with valid ids the result is -1 exactly without servers, otherwise a valid index, and it differs from the previous server whenever another one is listed; Servers.IdsValidIff says when the ids are valid and Servers.AlwaysValidIff what holds without it |
| Servers.IdsValidIff | src/celovpn/authmanager.cpp:208-213 | every id left behind by the logins is a valid index exactly if no login had more servers than there are now |
| Servers.AlwaysValidIff | src/celovpn/authmanager.cpp:503-551 | for any ids: whatever is drawn, a jump ends at a valid index if and only if some listed server other than the previous one has a ping, or all of them are valid indices |
| Servers.JumpAfterLogins | src/celovpn/authmanager.cpp:503-551 | a run: after logins with two servers and then one, a jump before the pings are known ends at an index that is no server |
| Servers.FewAreFaster | src/celovpn/authmanager.cpp:510-537 | said of the lists alone: if a listed server other than the previous one has a ping, such a server is chosen; of the places of such servers no more than the draw modulo min(20, their number) have a smaller ping and more than that have none that is greater, for every draw and every order of ties |
| Servers.KnownHolds | src/celovpn/authmanager.cpp:523-528 | the list that is sorted holds a ping and a server exactly as often as the server is listed, if it is not the previous one and that is its ping, and nothing else |
| Servers.DrawCounts | src/celovpn/authmanager.cpp:540-548 | without any ping the draw counts through the places of the servers other than the previous one, or through all servers if there is no other |
| Settings.ReselectIff | src/celovpn/setting.cpp:593-614 | a saved server is found again exactly if an index was saved and its name is still listed (for "undefined": is at its old place), and then a server of that name is selected |
| Settings.SurvivesReordering | src/celovpn/setting.cpp:585-624 | after any reordering a server still listed under its name is selected again: at its old place if it is there, and else where it comes first |
| Settings.Setting.LoadServer | src/celovpn/setting.cpp:585-624 | selects the saved server, else what getServerToJump chooses, and stores its index and name; without servers nothing changes |
| Settings.Setting.SetServer | src/celovpn/setting.cpp:574-583 | stores index and name of the server |
| Settings.Setting.LoadProtocol | src/celovpn/setting.cpp:529-548 | fills the tables and stores nothing: what it finds or draws is suppressed by the loading flag |
| Settings.Setting.SetProtocol | src/celovpn/setting.cpp:517-527 | stores index and name of the protocol, and a non-negative index fills the port table; while the protocol is being loaded it does nothing |
| Settings.Setting.DetermineNextPort | src/celovpn/setting.cpp:650-659 | the next index, back to 0 after the last of the table as it is |
| Settings.Setting.Port | src/celovpn/setting.cpp:640-648 | the port at the stored index, the first one for an index outside the table, and an exception for an empty table |
| Settings.PortAfterIsModulo | src/celovpn/setting.cpp:650-665 | from a stored index between -1 and n - 1 the k-th switch arrives at (index + k) modulo n |
| Settings.EveryPortOnce | src/celovpn/setting.cpp:650-665 | any n consecutive switches visit every port exactly once |
| Settings.NodesInOrder | src/celovpn/setting.cpp:667-677 | from the first place of a server the switches visit the later nodes in order up to the first one that repeats an earlier id; without one they stay at the last |
| Settings.LaterNodeOnce | src/celovpn/setting.cpp:667-677 | if no later id repeats an earlier one, a later node is visited at exactly one switch, the last one from then on |
| Settings.VisitedIff | src/celovpn/setting.cpp:667-677 | a later node is visited by some switch if and only if it is listed before the first id behind the current one that repeats an earlier one, for every list |
| Settings.LaterLogins | src/celovpn/setting.cpp:667-677 | after any later login with servers, the k-th switch from server w of a first login with n servers is at (w + k) modulo n |
| Settings.OnlyFirstLoginTried | src/celovpn/setting.cpp:667-677 | so from a server of the first login exactly the servers of the first login are ever visited |
| Settings.Setting.SwitchToNextNode | src/celovpn/setting.cpp:667-677 | selects the id behind the first occurrence of the current one in the ids of all logins, or changes nothing |
| RetryLoop.PortsTried | src/celovpn/vpnservicemanager.cpp:330-382 | as long as no connection comes up, the tries since the start are exactly for port index (stored + 1), (stored + 2), ... modulo n on the same server, one for the start and one for each timeout, and the user is not asked again |
| RetryLoop.NodesTried | src/celovpn/vpnservicemanager.cpp:330-382 | in node mode, if no id behind the current one repeats an earlier one, the tries are exactly for the later servers in order and then for the last one |
| RetryLoop.NodeTriedIff | src/celovpn/vpnservicemanager.cpp:330-382 | however many timeouts come, a later server is tried at some time if and only if it is listed before the first id behind the current one that repeats an earlier one |
| RetryLoop.OldServersOnly | src/celovpn/vpnservicemanager.cpp:330-382 | after a later login the loop that starts at a server of the first login tries exactly the servers of the first login |
| RetryLoop.UnlistedIsRetried | src/celovpn/vpnservicemanager.cpp:375-382 | in node mode a selected server that is not listed is tried again at every timeout |
| RetryLoop.ConnectionDialog.constructor | src/celovpn/connectiondialog.cpp:90 | the port table is filled before the window exists whose answer starts the loop, and the selection stays as it was |
| RetryLoop.ConnectionDialog.PortDialogResult | src/celovpn/connectiondialog.cpp:366-371 | accepting the question starts the loop over ports or nodes, refusing it changes nothing; the port table stays filled |
| RetryLoop.ConnectedEndsLoop | src/celovpn/vpnservicemanager.cpp:299-341 | after a connection nothing is tried until the user starts the loop again, who is asked at most once |
| RetryLoop.VPNServiceManager.TryNextPort | src/celovpn/vpnservicemanager.cpp:375-382 | moves the selection on and asks for a connection with it |
| RetryLoop.VPNServiceManager.StartPortLoop | src/celovpn/vpnservicemanager.cpp:367-373 | starts the loop over ports or nodes with a first try |
| RetryLoop.VPNServiceManager.OnTimeout | src/celovpn/vpnservicemanager.cpp:330-342 | a timeout tries on inside the loop, and outside asks the user unless that has been done |
| VpnTemplates.KeyIsInjective | src/service/openvpnmanager.cpp:1639-1643 | two keys are equal exactly if server and port class are |
| VpnTemplates.KeyIsInverted | src/service/openvpnmanager.cpp:363-364 | the / 10 and % 10 of the reply handlers give back server and port class exactly for servers that are not negative |
| VpnEffects.KeyValues | src/service/openvpnmanager.cpp:1639-1643 | the key is ten times the server plus 1 for port 1194, 2 for port 53 and 3 for every other port |
| VpnTemplates.Filter | src/service/openvpnmanager.cpp:305-315 | the loop over the lines of a template keeps it unchanged up to one newline, and finds DNS in a line exactly if the text mentions it |
| VpnNotify.StopEnds | src/service/openvpnmanager.cpp:658-700 | stop() ends Disconnected without management socket and log watcher; the state timer survives exactly if it ran while the state was Disconnected already |
| VpnNotify.ClientAgreesIff | src/service/qvpnclientconnection.cpp:82-86 | a client's m_state is the manager's state exactly if it has been notified since it came, or the state is Disconnected |
| VpnManager.RunAgrees | src/service/openvpnmanager.cpp:477-820 | in every run, for all events outside Windows and all lines of every read: from Disconnected on, no two neighbouring notifications are equal, the last one is mState, and every notified client mirrors it |
| VpnTheorems.ConfigIsOwn | src/service/openvpnmanager.cpp:106-399 | whatever order replies arrive in: a config file always ends with a template requested for the server and port class now wanted, the last such that arrived, and has only the DNS lines it needs before it |
| VpnUrls.RunIssued | src/service/openvpnmanager.cpp:136-159 | in every run: before the first start nothing is up and nothing has been asked for; afterwards the port is that of the last start plus the failed binds acted on since, and every request was made for a start, with its port plus the failed binds by then |
| VpnUrls.ConfigStart | src/service/openvpnmanager.cpp:343-399 | a written config is made of a template asked for after a start of the same server, and the two starts' ports, each moved by the failed binds since, are in one class |
| VpnUrls.UnmovedUrlIsOwn | src/service/openvpnmanager.cpp:343-399 | as long as no failed bind has been acted on, that start has the same port as the last one or both ports are neither 1194 nor 53; with a client's ports 1194, 53 and 443 the template then always comes from the URL of the last start |
| VpnUrls.UrlIsForeignIff | src/service/openvpnmanager.cpp:553-559 | if different ports have different URLs, the template of a written config comes from another URL than the last start's if and only if it was asked for after a start on another port; for a client's ports and at most 750 failed binds each, exactly if the moved ports are both neither 1194 nor 53 and the start ports differ |
| VpnUrls.ForeignArrivalIff | src/service/openvpnmanager.cpp:370-399 | at the arrival of a reply: the config is made of it and its URL is not the last start's, if and only if it was asked for the same server, the ports are in one class, and the start ports differ |
| VpnWitnesses.ForeignUrl | src/service/openvpnmanager.cpp:553-559 | a run in which a failed bind on 1194 makes a template of the URL for 1194 end up in the config of a later start on 443 |
| VpnTheorems.CacheIsLast | src/service/openvpnmanager.cpp:370-392 | the cache holds for every key the last template that arrived for it |
| VpnTheorems.OnlyStaleBreaksTimer | src/service/openvpnmanager.cpp:370-475 | the state timer runs only while the state is not Disconnected, and the one step that breaks this is a usable template arriving while Disconnected |
| VpnTheorems.TimerRun | src/service/openvpnmanager.cpp:370-475 | in every run the state timer runs while the manager is Disconnected only if a usable template has arrived while it was Disconnected |
| VpnWitnesses.TimerOutlivesStop | src/service/openvpnmanager.cpp:370-475 | start, stop, and the template arrives: a run in which the timer runs although the manager is Disconnected, and another stop leaves it running |
| VpnTheorems.SilentAfterStop | src/service/openvpnmanager.cpp:477-820 | once an event has left the manager stopped, without timer, no event but a new start, a reconnect timeout or an arriving template sends a notification or brings anything up again |
| VpnRuns.SilentThroughIff | src/service/openvpnmanager.cpp:806-980 | a stopped manager stays exactly as it is through the remaining lines of a read if and only if none of them reports a new connection or an attempt at one, announces a reconnect, or is a tunnel error while no error is marked; otherwise another notification goes out |
| VpnRuns.StopUndoneIff | src/service/openvpnmanager.cpp:806-936 | a stop by a line inside a read, fatal error or RESOLVE without network, lasts to the end of the read if and only if no later line of the read undoes it |
| VpnWitnesses.StopUndone | src/service/openvpnmanager.cpp:806-936 | a run in which a state word behind a fatal error in the same read leaves the manager Connecting with no socket, watcher, timer, reconnect timer or request |
| VpnTheorems.StatusIsCurrentIff | src/service/qvpnclientconnection.cpp:82-86 | in every run a status reply is current exactly if the client has been notified since it was accepted, or the state is Disconnected |
| VpnTheorems.AcceptedDisconnectedIsCurrent | src/service/qvpnclientconnection.cpp:157-186 | a client accepted while Disconnected always has the current state |
| VpnWitnesses.NewcomerIsWrong | src/service/qvpnclientconnection.cpp:82-86 | start, and a client connects: a run in which its status is wrong |
| VpnTheorems.NextGrows | src/service/openvpnmanager.cpp:568-595 | an event only adds notifications |
| VpnTheorems.OnlyReportsConnect | src/service/openvpnmanager.cpp:542-895 | the state becomes Connected only by a CONNECTED word other than the word before it, in the same read or an earlier one, or by a log line that reports completion while no error is marked |
| VpnTheorems.ConnectedWord | src/service/openvpnmanager.cpp:884-895 | after a CONNECTED word the state is Connected exactly if it was before, or the word differs from the one before it |
| VpnWitnesses.SecondConnectionIgnored | src/service/openvpnmanager.cpp:884-895 | connect, stop, connect again: a run in which the CONNECTED word of the second connection is ignored |
| VpnTheorems.LateEndsConnecting | src/service/openvpnmanager.cpp:498-511 | a check that finds connecting has taken too long never leaves the state Connecting |
| VpnRuns.AttemptsCount | src/service/openvpnmanager.cpp:1235-1248 | at every point of every run the counter of attempts is the number of reconnect timeouts since the last start; before the first start it is that number more than what it was created with |
| VpnRuns.ReconnectsIff | src/service/openvpnmanager.cpp:1235-1248 | in every run a reconnect timeout asks for the template again if and only if the process has ended or it is at least the third timeout since the last start, and then once, for the current server, port and URL |
| VpnTheorems.TunErrorIsForgotten | src/service/openvpnmanager.cpp:619-627 | the mark of a tunnel error never outlives an event, so a second tunnel error starts connecting again |
| VpnTheorems.ConfigNamesDns | src/service/openvpnmanager.cpp:303-333 | a config file names a DNS server exactly if the template or the user does; the user's are added only if the template has none |
| VpnTheorems.ConfigHasText | src/service/openvpnmanager.cpp:303-336 | for every template and all name servers the text that is written ends with the template and a newline; before that it has nothing if the template contains DNS, and otherwise exactly the line push "dhcp-option DNS ..." for each name server given, in order |
| VpnEffects.RefusedPassword | src/service/openvpnmanager.cpp:985-992 | a refused password ends Disconnected with the socket dropped and the error noted; every client is told once unless the state was Disconnected already |
| VpnEffects.OtherLines | src/service/openvpnmanager.cpp:950-1006 | what the other lines of the management socket do: a fatal error ends everything, a plain error drops the socket, a refused tunnel begins anew unless an error is noted |
| VpnEffects.WordEffect | src/service/openvpnmanager.cpp:879-936 | exactly which state words, in upper or lower case, lead to Connected, Connecting and Disconnected, when, and that no other word changes anything |
| VpnEffects.ReadEffect | src/service/openvpnmanager.cpp:806-820 | the lines of a read are handled one after the other, whatever the earlier ones have done to the socket |
| VpnEffects.LogLineEffect | src/service/openvpnmanager.cpp:542-566 | a log line with a failed bind moves the port by one and begins anew, one that reports completion connects, one with a refused tunnel begins anew unless an error is noted, and a line with the command is passed over |
| VpnEffects.LogEffect | src/service/openvpnmanager.cpp:514-540 | the new lines of the log are handled one after the other, and not at all if an error was noted before |
| VpnEffects.CheckEffect | src/service/openvpnmanager.cpp:477-512 | the timer's check gives a running process its socket, ends a connection whose process has died or begins anew, and ends connecting that has taken too long |
| VpnEffects.TimeoutEffect | src/service/openvpnmanager.cpp:1235-1248 | a reconnect timeout counts; if the process has ended it begins anew, from the third on it stops and begins anew, and otherwise the timer is started again |
| VpnEffects.ReplyEffect | src/service/openvpnmanager.cpp:370-475 | a template that arrives switches socket and timer on if the config file is written and the process launched, ends Disconnected if only the latter fails, and otherwise changes no state; no other template, request or flag is touched |
| VpnEffects.FailureEffect | src/service/openvpnmanager.cpp:358-368 | a reply that failed ends everything and forgets the one request |
| VpnEffects.CommandEffect | src/service/openvpnmanager.cpp:106-159 | a start ends what there was, takes over its parameters and asks for exactly the template of this server and port class; stop and the killing of a running process end what there is |
| VpnEffects.ClientEffect | src/service/qvpnclientconnection.cpp:28-60 | a client that comes is the last one and starts as Disconnected; when one goes the others keep their places and states |
| VpnService.OpenvpnManager.EmitStateChanged | src/service/qvpnclientconnection.cpp:157-171 | the loop over the clients reaches every one of them, each stores the state, and one notification is recorded |
| VpnService.OpenvpnManager.SetState | src/service/openvpnmanager.cpp:568-595 | a state that differs is stored, notified once, and Disconnected deletes the timer; the same state does nothing; clients and notifications stay in agreement |
| VpnService.OpenvpnManager.Stop | src/service/openvpnmanager.cpp:658-700 | whatever openvpnRunning() answers: ends Disconnected without socket and watcher, and the timer survives exactly if it ran while Disconnected |
| VpnService.OpenvpnManager.Start | src/service/openvpnmanager.cpp:106-134 | stops, stores the new parameters and starts connecting |
| VpnService.OpenvpnManager.StartConnecting | src/service/openvpnmanager.cpp:136-159 | sets Connecting, clears the error flags and asks for the template under the current key |
| VpnService.OpenvpnManager.WriteConfigFile | src/service/openvpnmanager.cpp:285-341 | writes the cached template of the current key, behind the DNS lines it needs; without one the file is left empty and the result is false |
| VpnService.OpenvpnManager.ContinueConnecting | src/service/openvpnmanager.cpp:161-243 | goes on only with a config file; then socket, watcher and timer are up, or after an exception the state is Disconnected |
| VpnService.OpenvpnManager.GetTemplateError | src/service/openvpnmanager.cpp:358-381 | a failed reply leaves the manager stopped and forgets the request, nothing else |
| VpnService.OpenvpnManager.GetTemplateFinished | src/service/openvpnmanager.cpp:370-399 | after any run: a template is stored under the key of its request, and the config file then ends with the last template that arrived for the server and port class now wanted, or is emptied, or untouched if it cannot be opened; the timer is wrong afterwards exactly if the template came too late |
| VpnService.OpenvpnManager.CheckState | src/service/openvpnmanager.cpp:477-512 | reconnects the socket; after a crash the state is not Connected, after a minute of connecting not Connecting, and otherwise it stays |
| VpnService.OpenvpnManager.ParseOpenvpnLogLine | src/service/openvpnmanager.cpp:542-566 | a failed bind moves to the next port and starts again; completion means Connected; a refused tunnel starts again unless an error is marked |
| VpnService.OpenvpnManager.OpenvpnLogfileChanged | src/service/openvpnmanager.cpp:515-540 | all new lines are parsed unless an error is marked; the manager becomes Connected only by a line that reports completion |
| VpnService.OpenvpnManager.ParseSocketStateWord | src/service/openvpnmanager.cpp:879-936 | what each state word does to the state, with or without a socket; EXITING starts a reconnect timer if reconnecting is on |
| VpnService.OpenvpnManager.SocketReadyRead | src/service/openvpnmanager.cpp:806-820 | all lines of a read are parsed in order; the manager becomes Connected only by a CONNECTED word other than the one before it, and a stop by one of the lines lasts exactly if no later line undoes it |
| VpnService.OpenvpnManager.ReconnectTimeout | src/service/openvpnmanager.cpp:1230-1248 | when a reconnect timer is running, after any run: the counter is the number of timeouts since the last start, and the template is asked for again exactly if the process has ended or it is at least the third |
| VpnService.OpenvpnManager.CmdStart | src/service/qvpnclientconnection.cpp:100-140 | a start command ends Connecting, without socket and watcher, counting from zero, with one more request: for this server, port and URL |
| VpnService.OpenvpnManager.CmdStop | src/service/qvpnclientconnection.cpp:142-148 | a stop command leaves the manager stopped; the timer survives only if an earlier template of the run came too late |
| VpnService.OpenvpnManager.KillRunningOpenvpn | src/service/openvpnmanager.cpp:1190-1223 | attaches to a running process and stops it, which leaves the manager stopped; otherwise nothing changes |
| VpnService.OpenvpnManager.IncomingConnection | src/service/qvpnserver.cpp:98-112 | a new client believes the manager is Disconnected, which is right exactly if it is |
| Framing.CutInPieces | src/service/qvpnclientconnection.cpp:62-67 | cutting at the first delimiters what has arrived, and later the rest with what comes, is cutting it all |
| Framing.CutReconstructs | src/service/qvpnclientconnection.cpp:65-67 | commands, delimiters and rest make up the stream again |
| Framing.CutIsClean | src/service/qvpnclientconnection.cpp:65-67 | the rest has no delimiter, and every command ends at the first delimiter behind it |
| Framing.CutIsUnique | src/service/qvpnclientconnection.cpp:65-67 | there is no other such way to cut a stream |
| Framing.LinesDoNotDependOnChunks | src/service/qvpnclientconnection.cpp:58-68 | however the stream is split into reads, commands and buffer are those of the whole stream |
| Framing.ClientConnection.SocketReadyRead | src/service/qvpnclientconnection.cpp:58-68 | one read takes all complete lines out of the buffer, in order, and leaves the rest |
| Framing.WaitingIff | src/common/qtservice/qtservice_unix.cpp:319-355 | after a read no command that would be executed waits in the cache if and only if none of those complete followed an empty one; nothing complete waits at all if and only if at most the last of them was empty |
| Framing.NothingIsLost | src/common/qtservice/qtservice_unix.cpp:317-373 | however the stream is split, also inside a CRLF: the commands dispatched and the complete ones still waiting are the non-empty commands of the stream |
| Framing.SplitsAgreeIff | src/common/qtservice/qtservice_unix.cpp:317-373 | all ways to split a stream into reads dispatch the same commands if and only if no other command follows an empty one in it |
| Framing.DispatchedHoweverSplit | src/common/qtservice/qtservice_unix.cpp:317-373 | then every split dispatches exactly the commands of the stream that are not empty |
| Framing.SinglesWaitForNothing | src/common/qtservice/qtservice_unix.cpp:317-373 | read byte by byte every stream is dispatched completely |
| Framing.EmptyCommandDelays | src/common/qtservice/qtservice_unix.cpp:322-373 | a stream with an empty command whose commands do depend on the split |
| Framing.ServiceServer.GetCommand | src/common/qtservice/qtservice_unix.cpp:364-373 | cuts the first command out of the socket's cache; without one it returns the empty string |
| Framing.ServiceServer.SlotReady | src/common/qtservice/qtservice_unix.cpp:317-356 | dispatches the commands up to the first empty one and leaves other sockets' caches alone |
| Quoting.EscapePsw | src/common/common.cpp:99-114 | puts a backslash before every backslash and quote |
| Quoting.RoundTrip | src/service/openvpnmanager.cpp:981-982 | a backslash-aware reader gets the text back and stops right behind the closing quote, whatever follows |
| Quoting.Injective | src/common/common.cpp:99-114 | different texts have different escapes |
| Quoting.Distributes | src/common/common.cpp:99-114 | escaping a concatenation is concatenating the escapes |
| Quoting.Length | src/common/common.cpp:99-114 | every special character costs one more; the length doubles exactly if all are special |
| Quoting.OneLineIff | src/service/openvpnmanager.cpp:981-984 | the command for the management socket is one line exactly if the text has no newline, which is not escaped |

## Left out

- LockTheorems.NoDeadlock: says that somebody inside a call can go on, not that every waiting writer gets its turn, because readers may keep arriving before it has the write mutex and the kernel decides who is served.
- LockProtocol: one lock object per process, as the comment in the source requires; a second object on the same file in one thread would share the kernel's recursive ownership.
- OpenMutex is taken to fail only if the mutex does not exist; with another failure a writer could overlook a reader.
- That WaitForMultipleObjects reports an abandoned mutex by a code lock() reads as failure is modelled by a free choice whenever a collected mutex was abandoned.
- QFile::open and close between lock() calls, and the file system's part of the lock file.
- ServiceProtocol: no spurious wakeups; the event loop may end whenever it is idle, which covers quit(); what happens to handler calls after start() has returned and freed its objects is not modelled.
- ServiceProtocol: the reports to the service control manager and the status flags, apart from the status values themselves.
- ServiceProtocol: Control is possible at any time once the handler is registered; what the service control manager itself refuses is not part of the model, except in ServiceTheorems.ReportsAfterStart.
- StunProbe.GetExternalIpByStun: the return code of a request is a function of attempt and server; sockets, timeouts and name lookup are not modelled.
- stun_req_id and getRandom64: unspecified randomness; transaction ids are arbitrary bytes.
- StunResponder.HandleRequest: the password kept beside the user name is never used by the code and not modelled.
- PingPool.RoundOk: a round is the one after the first login, because a second login neither empties the queue nor stops running pings, and their late results then go to the new list.
- PingPool: what a ping measures; timer connections accumulate in the code, which is covered by letting every started worker fire at any time and any number of times.
- The location of a server, its addresses and config URLs.
- VpnManager: the handlers under Q_OS_WIN, where processError notifies without changing the state, and process handling by QProcess.
- VpnManager: parsing a line of the log or the management socket into its kind; the kinds are the events. Lines that the code only answers through the socket (HOLD, the request for a password) change no state; a read in which such a line follows one that has dropped the socket is not modelled. netDown() by a setRights() that throws is no event, because nothing changes. Windows and obfsproxy options, credentials and IP notifications are left out.
- VpnUrls.UrlIsForeignIff: takes the URLs of starts from one table by server and port, as clients do between two logins.
- RetryLoop: a later login, a jump or a change of settings while the loop runs is no event, so the theorems about the loop speak of loops during which the ids and the settings stay as they are.
- VpnTemplates.ServerKey: unbounded integers; the 32-bit product overflows for ids beyond 214 million.
- The GUI's own reading of notifications does not buffer partial lines, so no chunk independence is claimed for it.
- Framing: bytes are characters; a read that ends inside a multi-byte character is not modelled. Closed sockets keep their cache entries in the code; sockets are never reused here.
- The JSON inside a command, and what the commands do, apart from those of `VpnManager`.
- PeerMessage.ReceiveConnection: starts when the four bytes of the length have arrived; the wait for them has no end in the code if they never come. What a refused message leaves in the buffer behind the bytes that arrived is not stated. UTF-8 is left to bytes.
- The Unix lock file, dialogs, tray, map, packaging, port forwarding, routing and DNS scripts.
