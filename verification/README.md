# A model of an SCTP socket API

This project models the user-space SCTP socket layer in `socketapi/` (sockets, associations,
notification queues, descriptor table, `select`), the address text and checksum code beside it, and
the scheduler and file transfer of two of the example programs, and proves what they promise. The
socket layer sits between an application and sctplib: sctplib calls back when data or events arrive
and when associations come up or end, and the application sends, receives, accepts and closes.

| file | what it models |
|---|---|
| `Basics.dfy` | names that several parts share |
| `Notifications.dfy`, `NotificationQueue.dfy` | notification records, and the linked list they wait in |
| `Delivery.dfy` | `internalReceive`, reading a record in pieces, the retry loop of `recvmsg` |
| `EngineState.dfy`, `EngineEvolution.dfy`, `EngineCalls.dfy`, `EngineOffLists.dfy`, `Engine.dfy` | the association engine: the state, its invariant, what auto-closing may change, what nothing else may take away, and every callback and call as a method |
| `AutoCloseTiming.dfy`, `EngineRouting.dfy`, `EngineScenarios.dfy` | when auto-closing ends an association, where a notification goes and what it says, and short runs of the engine with what the application gets |
| `PreEstablishment.dfy`, `RtoMax.dfy` | packets sent before communication is up; the retransmission timeout that stands in during setup |
| `Conditions.dfy`, `SelectWait.dfy`, `SelectEntries.dfy`, `SelectWrapper.dfy` | condition variables with parents, `ext_select` on SCTP descriptors, the entries it makes from the descriptor table, `select_wrapper` |
| `Descriptors.dfy`, `Endpoint.dfy` | the descriptor table and who owns a socket; the table over the engine |
| `AddressText.dfy`, `InternetAddress.dfy`, `AddressSplitter.dfy` | printing addresses, a reader for section 2.2 of RFC 4291, and the "address:port" constructor |
| `Checksum.dfy`, `SockaddrPack.dfy` | the Internet checksum (RFC 1071); packed socket addresses |
| `PortBoard.dfy`, `ScannerMarks.dfy`, `ScannerEnds.dfy`, `PortScanner.dfy` | the port scanner's state and what a pass keeps, which ports it marks and when it gives up, why a scan ends, and its scheduling loop |
| `Tftp.dfy` | block transfer of files |

The engine is a class whose fields are the tables of associations and sockets, the deferred
deletions, and what sctplib knows. Its `View()` is a value of type `State`, and each method says what
the new value is. A callback that sctplib makes from inside `sctp_abort` or `sctp_shutdown` is an
ordinary nested method call, so re-entrancy into the auto-close check is part of what is proved.
`Inv` is the invariant of every run. It holds one predicate per association, per ID, per instance and
per list entry.

## Where the code does not meet the property

Each of these is a theorem here, with the exact condition under which the code behaves as meant.

- `unbind` (`socketapi/sctpsocket.cc:367-386`) takes associations off the list before their destructor
  looks for them there, and the destructor then stops the program. Unbinding works exactly when every
  association of the socket is connectionless (`Engine.SocketMaster.Unbind`); it stops, for example, with
  an accepted association (`Engine.UnboundWhileAccepted`).
- `sendTo` with MSG_ABORT (`socketapi/sctpsocket.cc:1338-1345`) never gives its use back, so
  auto-closing never takes the association (`Engine.SocketMaster.SendBegin`,
  `EngineEvolution.AutoCloseIsSafe`). An empty data record taken from a global queue leaks a use in
  the same way (`Engine.SocketMaster.DropGlobalHead`).
- A peek is harmless only on data that sctplib can hand out or on a deliverable event not yet read in
  part; otherwise it rewinds or drops the record (`Delivery.PeekHarmless`).
- The search for other holders of a socket starts at slot 1, so closing keeps ownership exactly unless
  slot 0 is the only other holder (`Descriptors.CloseKeepsIff`, `Descriptors.ClosedUnderSlotZero`).
- A send with MSG_EOF or MSG_ABORT on an auto-connect socket deletes the association
  (`socketapi/sctpsocket.cc:1434-1443`) even if it still waits to be accepted, and its request then names
  an object that is gone. The lists stay sound exactly if it does not wait (`EngineCalls.RemovalSoundIff`,
  `Engine.RemovedWhileWaiting`). The same send deletes a peeled-off association under the descriptor that
  stands for it; over whole runs, every association that a descriptor stands for is alive exactly as long
  as no such send has ended (`Endpoint.Endpoint.Happen`, `Endpoint.PeeledOffAndClosed`).
- With a full descriptor table `ext_accept` deletes the association and then uses its null pointer
  (`socketapi/sctpsocketwrapper.cc:842-850`), which stops the program
  (`Descriptors.DescriptorTable.Accept`).
- The error for an aborted association is never reported: a lost one counts as complete
  (`socketapi/sctpsocketmaster.cc:855-856`), which is tested first. So, once everything is read, a receive
  on a lost association gives an end of stream, like an orderly shutdown (`EngineCalls.LostMeansReset`,
  `EngineCalls.LostReadsLikeShutdown`).
- A second connect on a descriptor loses the association that it held: ownership is kept exactly if there
  was none (`Descriptors.ConnectKeepsIff`, `Descriptors.ConnectedTwice`).
- Draining the pre-establishment packets before communication is up only rotates the list and never ends.
  When it is up, the drain hangs if a packet sent without MSG_DONTWAIT finds sctplib's queue full for ever;
  it ends exactly if the sending of every packet that it comes to returns (`PreEstablishment.DrainEndsIff`,
  `PreEstablishment.DrainMayNotEnd`).
  A packet sent after a failed drain overtakes those still queued, and only that breaks the order of
  submission (`PreEstablishment.Outbox.SendTo`). A packet submitted early ignores the association's send
  defaults (`PreEstablishment.EarlyLikeLate`).
- The unspecified address in dotted form reads back as a mapped address (`AddressSplitter.RoundTrip`).
  Text with a hidden port splits back exactly in dotted form (`AddressSplitter.BareSplits`). The
  comment in the constructor says that a host name in front of "(address:port)" is skipped, but for a
  dotted address it is not (`AddressSplitter.NamedSplits`). A link-local address whose interface is
  printed as "(BAD!)" is not split back: a printed address splits exactly unless its interface holds a
  parenthesis or a closing bracket (`AddressSplitter.PrintedSplits`).
- An upload whose length is a multiple of 2046 bytes, or zero, is stored completely but answered with
  a write error, and such a download is complete without the client saying so (`Tftp.UploadRoundTrip`,
  `Tftp.DownloadRoundTrip`).
- If the old instance parameters cannot be read, `associate` writes uninitialized ones back; a refused
  timeout is remembered while the association is pending, and the setup timeout stays in force if
  sctplib refuses to restore it (`RtoMax.Timeouts.Associate`, `RtoMax.Timeouts.SetAssocStatus`,
  `RtoMax.Timeouts.Settle`).
- `ext_select` clears a condition when it collects it. When two threads select on one descriptor, the
  first to collect takes the firing away, and the second wakes up and does not report the descriptor
  (`SelectWait.TakenByAnother`, `SelectWait.SecondReportsNothing`). Within one call no two entries share a condition
  (`SelectEntries.EntriesDistinct`).

## Model

| member | source | states |
|---|---|---|
| Notifications.NamedIff | socketapi/sctpsocketmaster.cc:1227-1277 | an association is counted in a queue exactly if some record names it |
| NotificationQueue.Queue.Add | socketapi/sctpnotificationqueue.cc:63-86 | First, Last and Count stay a list whose records are the old ones and then the new one |
| NotificationQueue.Queue.Get | socketapi/sctpnotificationqueue.cc:90-97 | finds the oldest record, and finds one exactly if the list is not empty |
| NotificationQueue.Queue.UpdateHead | socketapi/sctpnotificationqueue.cc:101-113 | replaces the oldest record and keeps all others and the links |
| NotificationQueue.Queue.DropHead | socketapi/sctpnotificationqueue.cc:117-128 | removes exactly the oldest record |
| NotificationQueue.Queue.Flush | socketapi/sctpnotificationqueue.cc:132-143 | leaves the empty list |
| NotificationQueue.Queue.HasWanted | socketapi/sctpnotificationqueue.cc:147-162 | true exactly if some record is data or an event subscribed to |
| Delivery.ReadHead | socketapi/sctpsocket.cc:784-947 | the step-by-step reading of a head record agrees with its specification in bytes, result, flags and what remains |
| Delivery.InternalReceive | socketapi/sctpsocket.cc:724-1024 | one pass over the linked queue: errors, blocking, reading, dropping and accounting; never more bytes than the buffer holds, and the result is their number |
| Delivery.PiecewiseDelivery | socketapi/sctpsocket.cc:784-984 | for any receives with positive buffer sizes, mixed with peeks and arrivals, the messages put together at MSG_EOR and what is left are the deliverable contents queued and arrived, in order |
| Delivery.WholeRecords | socketapi/sctpsocket.cc:784-984 | once the queue is read, the application has every deliverable record, queued or arrived meanwhile, whole and once |
| Delivery.PeekHarmless | socketapi/sctpsocket.cc:820-947 | when exactly a peek leaves the queue as it was |
| Delivery.CopiesWhatFits | socketapi/sctpsocket.cc:784-947 | a call copies the next unread bytes, as many as there are but no more than fit, and returns their number; otherwise none, with the reason |
| Delivery.FlagsTell | socketapi/sctpsocket.cc:784-947 | MSG_NOTIFICATION exactly for an event, MSG_EOR exactly if what was handed out was all of it, save for a peek at data |
| Delivery.RestStays | socketapi/sctpsocket.cc:784-984 | a record stays queued exactly if it was peeked at or has more, with the bytes not handed out |
| Delivery.NothingQueued | socketapi/sctpsocket.cc:737-774 | a pass over an empty queue: an end of stream, another error, EAGAIN or a wait, and nothing else happens |
| Delivery.ReceiveMessage | socketapi/sctpsocketwrapper.cc:2087-2117 | the retry loop ends, and is the recursive specification of repeated passes |
| Delivery.RetryFindsData | socketapi/sctpsocketwrapper.cc:2087-2117 | with notifications off the loop drops exactly the records before the first that stops it, and accounts each once |
| Delivery.FirstDataComesOut | socketapi/sctpsocketwrapper.cc:2087-2117 | with no error recorded the first data record comes out and later records stay untouched |
| EngineState.DeliverKeeps | socketapi/sctpsocketmaster.cc:1227-1277 | queueing a notification keeps the invariant |
| EngineState.FinishKeeps | socketapi/sctpsocketmaster.cc:854-884 | noting the end of an association keeps the invariant |
| EngineState.DetachKeeps | socketapi/sctpsocket.cc:2005-2031 | taking an association off the list keeps the invariant and leaves it on no list |
| EngineState.DestroyKeeps | socketapi/sctpassociation.cc:135-160 | destroying an ended association releases it once and keeps the invariant |
| EngineState.BeginDyingKeeps | socketapi/sctpassociation.cc:125-130 | handing a live association to the deferred collector keeps the invariant |
| EngineState.EndDyingKeeps | socketapi/sctpassociation.cc:148-163 | taking it off the list at the end of the destructor keeps the invariant |
| EngineState.CollectKeeps | socketapi/sctpsocketmaster.cc:446-472 | the deferred collector releases a closing association once and keeps the invariant |
| EngineState.LateReady | socketapi/sctpsocketmaster.cc:854-884 | setting ReadReady after the notification is queued is the same as setting it before |
| EngineEvolution.UseCountExact | socketapi/sctpsocketmaster.cc:1227-1277 | UseCount is the undelivered notifications plus calls in flight plus leaked uses, and zero exactly if there are none |
| EngineEvolution.AutoCloseIsSafe | socketapi/sctpsocket.cc:1981-2079 | auto-closing neither changes nor aborts an association while a notification, a call or a leaked use needs it, or it is not listed |
| EngineEvolution.SettledStays | socketapi/sctpsocket.cc:2005-2031 | what auto-closing has settled stays settled whatever it does next, unless another pass is due anyway |
| EngineEvolution.EvolvesTrans | socketapi/sctpsocket.cc:1981-2079 | what auto-closing may change is closed under repetition |
| EngineEvolution.EndWhileChecked | socketapi/sctpsocket.cc:2034-2068 | an end reported from inside the check closes the association, asks for another pass, and brings the check closer to its end |
| EngineEvolution.GuardEvolves | socketapi/sctpsocket.cc:1981-2079 | a guarded check, with all that is called from it, changes no more than auto-closing may |
| EngineEvolution.DoomedStays | socketapi/sctpassociation.cc:112-163 | nothing called while a destructor runs removes its association |
| EngineEvolution.OneCustodian | socketapi/sctpassociation.cc:112-165 | every ID handed out is live, or deferred, or released exactly once after its end was reported, and never two of these |
| EngineEvolution.InstanceOutlivesAssociations | socketapi/sctpsocketmaster.cc:406-440 | an instance is unregistered at most once and never while an association, live or closing, refers to it |
| EngineEvolution.ReadinessExact | socketapi/sctpsocket.cc:1150-1160 | the cached ReadReady of socket and association agrees with recomputing it |
| EngineEvolution.UnregisterKeeps | socketapi/sctpsocketmaster.cc:423-436 | unregistering an unused instance cannot fail and keeps the invariant |
| EngineCalls.RemovalSoundIff | socketapi/sctpsocket.cc:1434-1443 | when exactly deleting an association keeps the socket's lists sound |
| EngineCalls.LostMeansReset | socketapi/sctpsocket.cc:706-720 | in every reachable state exactly the lost and complete associations of a socket have an error, that of a reset and never that of an abort |
| EngineCalls.LostReadsLikeShutdown | socketapi/sctpsocket.cc:749-776 | with nothing left to read, a receive ends the stream at once exactly if the association is lost or complete |
| EngineCalls.LetGoKeeps | socketapi/sctpsocket.cc:689-697 | a call in flight finds the count positive when it gives its use back |
| EngineCalls.DropGlobalKeeps | socketapi/sctpsocket.cc:982-1010 | accounting for a dropped record never finds the count at zero |
| EngineCalls.DropOwnKeeps | socketapi/sctpsocket.cc:982-1010 | the same for an association's own queue |
| EngineCalls.PeelOffKeeps | socketapi/sctpsocket.cc:1551-1567 | peeling off keeps the invariant although records naming the association stay in the global queue |
| EngineCalls.AcceptedKeeps | socketapi/sctpsocket.cc:480-510 | accepting hands out a live association of the socket that is then on no list |
| EngineCalls.CreateKeeps | socketapi/sctpassociation.cc:53-108 | a new association with a fresh ID keeps the invariant |
| EngineCalls.IncomingKeeps | socketapi/sctpsocketmaster.cc:734-761 | queueing a connection request and its notification keeps the invariant |
| EngineCalls.RejectedIsReleased | socketapi/sctpsocketmaster.cc:786-801 | an unwanted association of a peer ends up aborted and released once, whatever auto-closing does then |
| EngineCalls.DeleteSame | socketapi/sctpsocket.cc:352-366 | deleting a connectionless association takes no other unlisted association with it |
| EngineCalls.EndedStays | socketapi/sctpsocketmaster.cc:834-884 | an association in use, or on no list, outlives the handling of its own end |
| AutoCloseTiming.IdleIsLeftAlone | socketapi/sctpsocket.cc:2034-2068 | auto-closing leaves an open association alone if it is switched off, or until its idle time is over |
| AutoCloseTiming.IdleIsNotAborted | socketapi/sctpsocket.cc:2034-2044 | and does not abort it until four times that |
| AutoCloseTiming.DeletedForCause | socketapi/sctpsocket.cc:2003-2069 | what it deletes was listed and unused, and closed or idle for too long |
| AutoCloseTiming.SettledTold | socketapi/sctpsocket.cc:2003-2069 | on a settled socket the closed unused associations are gone, those idle for too long shut down, and those idle for four times that aborted |
| AutoCloseTiming.CheckedGoesByClock | socketapi/sctpsocket.cc:2003-2069 | what one check does, by use count, end flags and idle time alone |
| EngineRouting.DeliverRoutes | socketapi/sctpsocketmaster.cc:1227-1277 | a wanted record goes to the end of the association's own queue if it is peeled off or there is no global queue, else to the end of the socket's; one use is counted and nothing else changes |
| EngineRouting.EventReads | socketapi/ext_socket.h:132-142 | the encoded sctp_assoc_change reads back field by field |
| EngineRouting.EndIsAnnounced | socketapi/sctpsocketmaster.cc:854-884 | a loss sets both end flags and is announced as 12, an orderly end sets one and is announced as 14 |
| EngineRouting.UpIsAnnounced | socketapi/sctpsocketmaster.cc:701-781 | an association of ours is marked as up and announced as 11 with its streams |
| EngineRouting.RequestIsAnnounced | socketapi/sctpsocketmaster.cc:734-781 | a peer's association is new, unused and last in the queue of requests, and announced |
| EngineScenarios.PeelOffAndReceive | socketapi/sctpsocket.cc:1551-1567 | data for an association that was peeled off is read from it, up to the buffer's size, and not from its socket |
| EngineScenarios.ReceiveGlobally | socketapi/sctpsocketmaster.cc:1257-1267 | data for any other association of a socket with a global queue is read from the socket |
| EngineScenarios.LoseAndReceive | socketapi/sctpsocketmaster.cc:854-884 | the loss of an unlisted association is read as an event of 20 bytes that says so |
| EngineScenarios.SendAndWait | socketapi/sctpsocket.cc:1465-1475 | a send counts as use: auto-closing leaves the association alone until its timeout is over |
| EngineScenarios.ReceiveAndWait | socketapi/sctpsocket.cc:982-1010 | so does a receive from the global queue |
| EngineScenarios.ReceiveOwnAndWait | socketapi/sctpsocket.cc:982-1010 | so does a receive from an own queue |
| EngineScenarios.AbandonAndWait | socketapi/sctpsocket.cc:1981-2079 | an association that nobody uses is aborted after four timeouts, and deleted and released once its end is reported |
| EngineOffLists.EvolvesStaysOff | socketapi/sctpsocket.cc:1981-2079 | auto-closing takes away no association that is on none of its socket's lists |
| EngineOffLists.DeleteStaysOff | socketapi/sctpassociation.cc:112-163 | deleting an association, with all that is called back meanwhile, takes away no other such one |
| Engine.SocketMaster.AddNotification | socketapi/sctpsocketmaster.cc:1227-1277 | queues a wanted notification in the right queue, told by the fields alone, and counts a use; nothing happens for an association that is gone |
| Engine.SocketMaster.CommunicationLost | socketapi/sctpsocketmaster.cc:809-886 | a deferred association is released; a live one is marked and notified, and then its socket is settled, or checked again if its check is under way |
| Engine.SocketMaster.ShutdownComplete | socketapi/sctpsocketmaster.cc:994-1037 | the same for an orderly end |
| Engine.SocketMaster.NoteLost | socketapi/sctpsocketmaster.cc:854-881 | marks, notifies and sets ReadReady in the source's order |
| Engine.SocketMaster.AssociationGarbageCollection | socketapi/sctpsocketmaster.cc:446-476 | acts exactly on deferred associations and releases each once |
| Engine.SocketMaster.SocketGarbageCollection | socketapi/sctpsocketmaster.cc:388-442 | settles every socket not being checked; the closing instances left are exactly those a closing association refers to |
| Engine.SocketMaster.UnregisterUnused | socketapi/sctpsocketmaster.cc:405-436 | the same for the second half alone, with nothing else changed |
| Engine.SocketMaster.CheckAutoClose | socketapi/sctpsocket.cc:1981-2079 | ends although aborts may re-enter it; a nested call only asks for another pass; on exit nothing finished is listed, every listed association whose time is up has been told, and none whose time is not up has been touched |
| Engine.SocketMaster.Sweep | socketapi/sctpsocket.cc:1999-2072 | one pass settles the socket, or another pass is due and fewer associations are open |
| Engine.SocketMaster.CheckAssociation | socketapi/sctpsocket.cc:2003-2069 | deletes, aborts, shuts down or leaves alone, exactly by use count, end flags and idle time |
| Engine.SocketMaster.Abort | socketapi/sctpassociation.cc:451-463 | an abort, with the loss possibly reported before it returns |
| Engine.SocketMaster.Shutdown | socketapi/sctpassociation.cc:439-447 | shuts down at most once, with an end possibly reported before it returns |
| Engine.SocketMaster.Delete | socketapi/sctpassociation.cc:112-163 | an ended association is released at once, any other is left to the collector, which may have run before the destructor ends |
| Engine.SocketMaster.Notify | socketapi/sctpsocketmaster.cc:480-552 | data and event callbacks queue exactly one notification for a live association |
| Engine.SocketMaster.CommunicationUp | socketapi/sctpsocketmaster.cc:678-804 | own association established, or request queued on a listening socket, or the association rejected, released and its socket settled |
| Engine.SocketMaster.AssociateBegin | socketapi/sctpsocket.cc:605-640 | the new association is held by the call |
| Engine.SocketMaster.AssociateEnd | socketapi/sctpsocket.cc:660-702 | a blocking call without establishment deletes the association; otherwise the use is given back |
| Engine.SocketMaster.SendBegin | socketapi/sctpsocket.cc:1312-1345 | connecting twice changes nothing, an abort leaks a use, every other send holds the association |
| Engine.SocketMaster.SendNew | socketapi/sctpsocket.cc:1370-1386 | a connection made by sending is held and listed |
| Engine.SocketMaster.SendEnd | socketapi/sctpsocket.cc:1404-1500 | MSG_EOF shuts down and MSG_ABORT aborts, and both remove on an auto-connect socket; otherwise the use is given back |
| Engine.SocketMaster.AbortHeld | socketapi/sctpassociation.cc:451-463 | aborting an association in use, or on no list, leaves its object and every other unlisted association |
| Engine.SocketMaster.ShutdownHeld | socketapi/sctpassociation.cc:439-447 | the same for shutting down |
| Engine.SocketMaster.Accept | socketapi/sctpsocket.cc:434-514 | takes the oldest request, or none if there is none or the socket does not listen; readiness follows |
| Engine.SocketMaster.CheckAutoConnect | socketapi/sctpsocket.cc:2083-2103 | every waiting association is listed, no other, and listening is restored |
| Engine.SocketMaster.PeelOffAssociation | socketapi/sctpsocket.cc:1551-1567 | succeeds exactly on a listed association that is not shutting down; queued notifications stay accounted |
| Engine.SocketMaster.Receive | socketapi/sctpsocket.cc:724-1024 | one receive on the global queue: result, bytes, flags and the whole new state |
| Engine.SocketMaster.ReceiveOwn | socketapi/sctpsocket.cc:724-1010 | one receive on an association's own queue, empty or not: result, bytes, flags, waiting and the whole new state |
| Engine.SocketMaster.DropGlobalHead | socketapi/sctpsocket.cc:982-1010 | the branch for too many decrements cannot be reached |
| Engine.SocketMaster.CloseAssociation | socketapi/sctpsocketwrapper.cc:556-591 | closing an accepted or peeled-off association deletes it and no other unlisted one, whatever is called back meanwhile, with an abort exactly if lingering asks for one |
| Engine.SocketMaster.BindSocket | socketapi/sctpsocket.cc:221-342 | a bound socket starts empty under a fresh instance |
| Engine.SocketMaster.Listen | socketapi/sctpsocket.cc:420-430 | listening exactly if the backlog is positive |
| Engine.SocketMaster.Unbind | socketapi/sctpsocket.cc:346-416 | survives exactly if every association of the socket is connectionless, for the second loop erases one before its destructor looks for it; then none is left and the instance is deferred |
| Engine.SocketMaster.DeleteListed | socketapi/sctpsocket.cc:352-366 | one round removes its association, aborted exactly if asked for, and leaves the unlisted ones |
| Engine.SocketMaster.Run | socketapi/sctpsocketmaster.cc:276-303 | every run of callbacks, timers and calls, in any order, keeps the invariant, up to an unbind that stops the program |
| Engine.SocketMaster.Callback | socketapi/sctpsocketmaster.cc:480-1037 | no callback, timer or collector takes away an association that is on none of its socket's lists |
| Engine.SocketMaster.Call | socketapi/sctpsocket.cc:346-2103 | no call does, except one that makes, closes or removes that association; a call goes on unless it unbinds a socket with unlisted associations |
| Engine.RemovedWhileWaiting | socketapi/sctpsocket.cc:1434-1443 | a run that leads to such a removal of an association waiting to be accepted |
| Engine.UnboundWhileAccepted | socketapi/sctpsocket.cc:367-386 | a run in which unbinding stops the program |
| PreEstablishment.EarlyLikeLate | socketapi/sctpassociation.cc:330-390 | when exactly a packet submitted early is sent as it would be if submitted late |
| PreEstablishment.AttemptTells | socketapi/sctpsocket.cc:1050-1140 | one attempt: taken, waiting, or a reason, and which exactly |
| PreEstablishment.DrainEndsIff | socketapi/sctpassociation.cc:394-435 | draining ends exactly if nothing is queued, or communication is up and every packet reached has an error recorded, does not wait, or at some point meets a queue that is not full |
| PreEstablishment.DrainMayNotEnd | socketapi/sctpassociation.cc:394-435 | one waiting packet for which draining does not end, in either way |
| PreEstablishment.RotatesForever | socketapi/sctpassociation.cc:330-360 | before that, each pass only moves the head to the end |
| PreEstablishment.Outbox.SendTo | socketapi/sctpassociation.cc:320-390 | queueing or one attempt at direct sending, with the recorded error, the wait for room and the source's results; order is broken exactly by an accepted direct send past queued packets |
| PreEstablishment.Outbox.SendPreEstablishmentPackets | socketapi/sctpassociation.cc:394-435 | the loop, attempt by attempt, is its specification; while communication is up accepted and queued packets together stay the same sequence |
| PreEstablishment.Outbox.CommunicationUp | socketapi/sctpsocketmaster.cc:722-731 | coming up drains without losing, copying or reordering |
| PreEstablishment.Outbox.Run | socketapi/sctpsocketmaster.cc:1055-1062 | over any run with any failures, waits and retries, early packets arrive in order and unchanged; only a drain before communication is up breaks this, and it never returns |
| RtoMax.Timeouts.Associate | socketapi/sctpsocket.cc:526-642 | which timeout and retransmissions sctplib then holds and which timeout is reported, for every success or failure of its calls; when exactly the instance's defaults are left unchanged |
| RtoMax.Timeouts.SetAssocStatus | socketapi/sctpassociation.cc:486-500 | when exactly the timeout seen is the one set |
| RtoMax.Timeouts.Settle | socketapi/sctpsocketmaster.cc:839-852 | up or lost: the timeout seen is unchanged exactly if sctplib answers or the two were equal |
| RtoMax.Timeouts.Run | socketapi/sctpassociation.cc:467-500 | over any run in which sctplib refuses nothing, every get reports the timeout last set before it, whether the association is pending, up or lost |
| Conditions.Condition.Broadcast | socketapi/condition.cc:112-151 | fires exactly the condition and everything above it, and ends |
| Conditions.Condition.AddParent | socketapi/condition.cc:78-88 | adds the link, and fires everything above it if the condition had fired |
| Conditions.Condition.RemoveParent | socketapi/condition.cc:92-99 | removes exactly that link |
| Conditions.Condition.TestFired | socketapi/condition.icc:51-58 | reports and clears the flag, and nothing else |
| Conditions.Condition.TimedWait | socketapi/condition.cc:155-205 | does not miss a condition that has already fired |
| Conditions.ReachesTrans | socketapi/condition.cc:112-151 | reaching is transitive |
| Conditions.StaysAlert | socketapi/condition.cc:78-151 | no step of another thread makes a select call miss a watched condition |
| Conditions.NoLostWakeUp | socketapi/condition.cc:78-151 | over any interleaving, a watched condition that has fired has fired the global condition |
| Conditions.LinkWatches | socketapi/condition.cc:78-88 | linking starts the watch, whether the firing comes before or after |
| SelectWait.NewLocals | socketapi/sctpsocketwrapper.cc:2806-2815 | the four conditions of a call, new and linked to the global one |
| SelectWait.FreshLocalsAlert | socketapi/sctpsocketwrapper.cc:2806-2815 | such a set starts alert and nothing leads to it |
| SelectWait.Register | socketapi/sctpsocketwrapper.cc:2543-2594 | the registration loop on the condition objects is its specification |
| SelectWait.RegisteredAllAlert | socketapi/sctpsocketwrapper.cc:2543-2594 | after registration the call is alert, and already woken exactly if a descriptor is ready |
| SelectWait.RegisteredAllParents | socketapi/sctpsocketwrapper.cc:2543-2594 | each condition gains exactly the local conditions of its entries as parents |
| SelectWait.Collect | socketapi/sctpsocketwrapper.cc:2879-2912 | the collecting loop on the condition objects is its specification, and counts what it reports |
| SelectWait.CollectedAllIs | socketapi/sctpsocketwrapper.cc:2879-2912 | collecting clears exactly the watched conditions and removes exactly the call's links |
| SelectWait.ReportsExactly | socketapi/sctpsocketwrapper.cc:2879-2912 | a descriptor is reported exactly if its condition fired and no earlier entry watches the same one |
| SelectWait.ChangesAreSeen | socketapi/sctpsocketwrapper.cc:2879-2884 | a call returns the number of entries it has found fired |
| SelectWait.WholeCall | socketapi/sctpsocketwrapper.cc:2803-2912 | a whole call with any acts of other threads before and after its wait: it does not wait if a watched condition has fired, what nobody consumes, of what was ready at the start or had fired, is still there to be reported, and a descriptor is reported exactly if its condition has fired |
| SelectWait.Select | socketapi/sctpsocketwrapper.cc:2803-2912 | the call on the condition objects, with other threads acting in between, is its specification, and leaves the parents as the others made them |
| SelectWait.TakenByAnother | socketapi/sctpsocketwrapper.cc:2879-2912 | what a call that collects right after another still reports |
| SelectWait.SecondReportsNothing | socketapi/sctpsocketwrapper.cc:2879-2912 | two calls on one descriptor, of which the second reports nothing |
| SelectWait.FiredExactly | socketapi/sctpsocketwrapper.cc:2803-2912 | when a call collects, a condition that nobody consumed has fired exactly if its descriptor was ready or some act fired it meanwhile |
| SelectEntries.EntriesDistinct | socketapi/sctpsocketwrapper.cc:2543-2660 | in every state of the descriptor table, the entries of one call watch different conditions |
| SelectEntries.DescriptorReported | socketapi/sctpsocketwrapper.cc:2543-2912 | so an SCTP descriptor is reported exactly if it was asked for and its condition has fired |
| SelectEntries.EntriesCounted | socketapi/sctpsocketwrapper.cc:2879-2974 | in every owned table the count is the number of bits that the call sets |
| SelectEntries.SelectReports | socketapi/sctpsocketwrapper.cc:2803-2912 | the whole call over descriptors: what is reported was asked for and was ready or fired meanwhile, all of that which nobody consumed is reported, it does not wait with something ready, and it returns the number of bits it sets |
| SelectWait.ParentsRestored | socketapi/sctpsocketwrapper.cc:2803-2912 | whatever other threads do between registering, waiting and collecting, every parent set is left as they made it |
| SelectWrapper.Translate | socketapi/sctpsocketwrapper.cc:2680-2719 | the first loop builds the specified translation |
| SelectWrapper.KernelSets | socketapi/sctpsocketwrapper.cc:2680-2719 | the kernel's sets are exactly the system descriptors of the requested slots |
| SelectWrapper.WayBack | socketapi/sctpsocketwrapper.cc:2680-2719 | the reverse map leads from each system descriptor back to its slot |
| SelectWrapper.KeepUdp | socketapi/sctpsocketwrapper.cc:2741-2763 | keeps and counts exactly the requested UDP-like sockets |
| SelectWrapper.MapBack | socketapi/sctpsocketwrapper.cc:2764-2783 | the last loop sets exactly the slots of the ready descriptors |
| SelectWrapper.Select | socketapi/sctpsocketwrapper.cc:2668-2787 | each output set is exact, with bits at or above n too, and the result is the number of bits set; an error changes nothing |
| Descriptors.PlaceKeeps | socketapi/sctpsocketwrapper.cc:222-235 | putting a new socket or association into a free slot keeps ownership |
| Descriptors.CloseKeepsIff | socketapi/sctpsocketwrapper.cc:527-602 | when exactly closing keeps ownership |
| Descriptors.ClosedUnderSlotZero | socketapi/sctpsocketwrapper.cc:527-541 | a table in which closing slot 1 deletes the socket under slot 0 |
| Descriptors.ConnectedTwice | socketapi/sctpsocketwrapper.cc:1927-1952 | a table in which a second connect loses an association |
| Descriptors.DescriptorTable.SetSocket | socketapi/sctpsocketwrapper.cc:222-235 | takes the highest free slot below the limit, or fails if there is none |
| Descriptors.DescriptorTable.MayRemove | socketapi/sctpsocketwrapper.cc:527-541 | true exactly if no other slot from 1 on shares the socket |
| Descriptors.DescriptorTable.Close | socketapi/sctpsocketwrapper.cc:545-602 | results, the freed slot, and the socket deleted exactly with its last slot |
| Descriptors.DescriptorTable.NewSocket | socketapi/sctpsocketwrapper.cc:395-458 | a new socket in a free slot, or nothing changed |
| Descriptors.DescriptorTable.Accept | socketapi/sctpsocketwrapper.cc:818-852 | the accepted association in a free slot, sharing the listening socket; the program stops exactly if the table is full |
| Descriptors.DescriptorTable.PeelOff | socketapi/sctpsocketwrapper.cc:3061-3087 | the peeled-off association in a free slot, or an error with nothing changed; it is deleted exactly if the table is full |
| Descriptors.ConnectKeepsIff | socketapi/sctpsocketwrapper.cc:1927-1952 | when exactly connecting a descriptor keeps ownership |
| Descriptors.DescriptorTable.Connect | socketapi/sctpsocketwrapper.cc:1927-1952 | the slot gets the new association, or none, whatever it held |
| Descriptors.DescriptorTable.Run | socketapi/sctpsocketwrapper.cc:395-602 | every run of socket, connect, accept, peeloff and close keeps ownership, as long as no descriptor is connected twice, up to an accept that stops the program |
| Endpoint.Endpoint.Accept | socketapi/sctpsocketwrapper.cc:811-857 | the oldest waiting association gets a slot, no slot held it before, and every slot's association stays alive |
| Endpoint.Endpoint.PeelOff | socketapi/sctpsocketwrapper.cc:3061-3087 | a listed association leaves the list and gets a slot, or is deleted if there is none; the others stay alive |
| Endpoint.Endpoint.Connect | socketapi/sctpsocketwrapper.cc:1927-1952 | the slot gets the association exactly if it was established |
| Endpoint.Endpoint.Close | socketapi/sctpsocketwrapper.cc:545-602 | a slot and its association go, and with the last slot its socket is unbound; every other slot's association stays alive |
| Endpoint.Endpoint.EndSend | socketapi/sctpsocket.cc:1404-1459 | every slot's association is alive after a send exactly unless it closes one on an auto-connect socket |
| Endpoint.Endpoint.Happen | socketapi/sctpsocketwrapper.cc:395-602 | whatever happens, every slot's association stays alive exactly unless it is the end of such a send |
| Endpoint.Endpoint.Run | socketapi/sctpsocketwrapper.cc:395-602 | so it is over whole runs of callbacks, calls and descriptor calls, in any order and number |
| Endpoint.PeeledOffAndClosed | socketapi/sctpsocket.cc:1434-1459 | a run that deletes an association under its slot |
| AddressText.NumeralReads | socketapi/internetaddress.cc:394-424 | a printed decimal or hexadecimal number reads back |
| AddressText.AcceptedHasOneGap | socketapi/internetaddress.cc:386-440 | a text that the RFC 4291 reader accepts holds at most one "::" |
| AddressText.QuadReads | socketapi/internetaddress.cc:431-440 | a dotted quad reads back as its two words |
| AddressText.GapReads | socketapi/internetaddress.cc:397-421 | replacing any run of zero words by "::" reads back as the same eight words |
| AddressText.MappedReads | socketapi/internetaddress.cc:390-440 | the mapped form reads back as the same eight words |
| AddressText.HexTextReads | socketapi/internetaddress.cc:386-440 | every address in hexadecimal form reads back, with at most one "::" |
| InternetAddress.PrintStep | socketapi/internetaddress.cc:394-428 | one pass of the loop, over one word or a whole run, prints what the form asks for |
| InternetAddress.PrintWords | socketapi/internetaddress.cc:386-440 | the loop prints exactly the form that compresses the first run of two or more zero words |
| InternetAddress.GetAddressString | socketapi/internetaddress.cc:384-481 | which form is printed, with the interface and the port |
| AddressSplitter.PortReads | socketapi/internetaddress.cc:113-117 | a printed port is found by the scanner, whatever follows it |
| AddressSplitter.PrintedSplits | socketapi/internetaddress.cc:73-132 | text with a port splits into the printed host and port, exactly unless an interface name holds a parenthesis or a closing bracket |
| AddressSplitter.FormShows | socketapi/internetaddress.cc:386-470 | colons and brackets are printed exactly for an IPv6 address, or if that form is asked for and the legacy one is not |
| AddressSplitter.LargePortIsService | socketapi/internetaddress.cc:113-132 | a number above 65535 is a service name, not a port |
| AddressSplitter.SignedPort | socketapi/internetaddress.cc:113-132 | a negative number is a service name too, a number with a plus sign is a port |
| AddressSplitter.LeadingParenthesisStays | socketapi/internetaddress.cc:79-112 | a parenthesis at the very start stays part of the host |
| AddressSplitter.InterfaceShown | socketapi/internetaddress.cc:448-460 | the interface is printed exactly for fe80 to febf in hexadecimal form |
| AddressSplitter.BareSplits | socketapi/internetaddress.cc:73-132 | text without a port splits back exactly in dotted form |
| AddressSplitter.NamedSplits | socketapi/internetaddress.cc:84-109 | a name in front is skipped exactly for bracketed addresses whose interface holds no closing bracket |
| AddressSplitter.RoundTrip | socketapi/internetaddress.cc:73-132 | printing with port and reading gives address and port back, link-local ones included, exactly unless the unspecified address is printed in dotted form |
| Checksum.OnesSumUnique | socketapi/internetaddress.cc:773-798 | the ones'-complement value of a sum is unique |
| Checksum.CalculateChecksum | socketapi/internetaddress.cc:773-798 | without overflow, the result is that value for the initial sum plus all words |
| Checksum.SplitChecksum | socketapi/internetaddress.cc:773-798 | checksums compose over even-length parts |
| Checksum.ChecksumVerifies | socketapi/internetaddress.cc:802-806 | data, padded to whole words, followed by its wrapped checksum sums to 0xffff |
| SockaddrPack.SizesAre | socketapi/sctpsocketwrapper.cc:133-160 | family 2 takes 16 bytes, family 10 takes 28, and no other is known |
| SockaddrPack.PackInto | cppsocketapi/tdsocket.cc:108-131 | writes exactly the records' bytes, touches nothing after them, and stops exactly at an unknown family |
| SockaddrPack.Pack | socketapi/sctpsocketwrapper.cc:133-172 | allocates exactly what it fills, with the same bytes as the other packer |
| SockaddrPack.Unpack | socketapi/sctpsocketwrapper.cc:109-129 | overwrites each storage with its block and leaves the rest alone |
| SockaddrPack.RoundTrip | socketapi/sctpsocketwrapper.cc:109-172 | unpacking what was packed gives every address back on its family's size |
| PortBoard.FillSlotKeeps | cppsocket_programs/sctpportscanner.cc:253-302 | handing out the next port keeps the ledger |
| PortBoard.TestSlotKeeps | cppsocket_programs/sctpportscanner.cc:319-347 | probing or expiring a slot keeps the ledger and the marks |
| PortBoard.PassesKeep | cppsocket_programs/sctpportscanner.cc:238-349 | after any passes every port handed out is in one slot or finished once, and marked exactly if its write succeeded |
| PortBoard.ConsistentMeans | cppsocket_programs/sctpportscanner.cc:238-349 | so slot ports are distinct, running counts the occupied slots within the limit, and success says which writes succeeded |
| PortBoard.DoneFinishedAll | cppsocket_programs/sctpportscanner.cc:252-349 | when the loop's condition fails without a break, every port of the range is finished exactly once |
| PortBoard.FillStops | cppsocket_programs/sctpportscanner.cc:253-302 | stopping early once the ports have run out leaves nothing out |
| PortScanner.Scanner.Fill | cppsocket_programs/sctpportscanner.cc:253-302 | the filling loop on the arrays is its specification |
| PortScanner.Scanner.Finish | cppsocket_programs/sctpportscanner.cc:320-332 | the slot is freed, the port finished, and marked exactly if its write succeeded |
| PortScanner.Scanner.Test | cppsocket_programs/sctpportscanner.cc:318-347 | the testing loop on the arrays is its specification: ready slots are probed, or old ones expire if none is ready |
| ScannerMarks.TestedIs | cppsocket_programs/sctpportscanner.cc:318-347 | a test ends exactly the ready attempts, or, if none is ready, those whose time is over, and marks exactly the ready ports whose write succeeds |
| ScannerMarks.FilledIs | cppsocket_programs/sctpportscanner.cc:253-302 | filling leaves attempts alone, and gives new ones new ports and the full time |
| ScannerMarks.MarkedIffWritten | cppsocket_programs/sctpportscanner.cc:319-347 | after any passes a port is marked exactly if its test write succeeded in one of them, in a ready slot |
| ScannerMarks.NotGivenUpEarly | cppsocket_programs/sctpportscanner.cc:319-347 | an attempt is ended only if it is ready, or not before its connect timeout is over |
| ScannerEnds.TimeoutFinishes | cppsocket_programs/sctpportscanner.cc:252-349 | within one connect timeout some port is finished, however silent the peers are |
| ScannerEnds.ScanEnds | cppsocket_programs/sctpportscanner.cc:252-349 | as the clock advances, the scan is done after at most (timeout + 1) rounds a port |
| PortScanner.Scanner.Scan | cppsocket_programs/sctpportscanner.cc:238-349 | the whole loop: when exactly it stops, what the arrays hold then, the ledger kept, exactly the ports marked that were written, every port finished once if it ends by itself, and a bound on the rounds it takes |
| Tftp.SendFile | cppsocket_programs/sctpmultiserver.cc:480-497 | the packets sent are the file's packets up to the first failed send |
| Tftp.Get | cppsocket_programs/sctptftp.cc:76-124 | the client's loop is its specification on any messages; no file is created for an error |
| Tftp.DownloadRoundTrip | cppsocket_programs/sctptftp.cc:81-123 | every file arrives as it was, and every packet is taken and no more |
| Tftp.InterruptedDownload | cppsocket_programs/sctptftp.cc:81-123 | after a failed send the client has exactly the blocks sent |
| Tftp.OtherPacketStops | cppsocket_programs/sctptftp.cc:81-123 | an error packet after any blocks ends the download with its code, another packet with a complaint; the blocks are kept |
| Tftp.OtherPacketRefused | cppsocket_programs/sctpmultiserver.cc:508-538 | a packet that is not data ends an upload with an error; the blocks are kept |
| Tftp.StoreFile | cppsocket_programs/sctpmultiserver.cc:508-538 | the server's loop is its specification on any messages |
| Tftp.UploadRoundTrip | cppsocket_programs/sctpmultiserver.cc:508-538 | every file is stored as it was; it is acknowledged exactly if it does not fill its blocks |

## Left out

Assumptions on sctplib and the system:

- sctplib hands out fresh association and instance IDs, and reports at most one end per association.
  Communication up is not reported for an association that is already shutting down.
- A locked region is one atomic step. Timing, threads, cancellation and locks are not modelled.
- `getaddrinfo`, service lookup, sockets of the system, files, terminals and clocks are parameters.
- A layer rank on conditions stands for the acyclic parent graph that the code sets up.

Differences from the source:

- Sockets and associations are records in tables, and deleting one removes its record. Dangling
  pointers and aliasing are not captured. The linked notification queue is proved in
  `NotificationQueue.dfy`; in the engine a queue is a sequence.
- Subscriptions are sets of event kinds and stay fixed after an object is made. An event's content is a
  byte string. Send-failure records carry their own tag, although
  `socketapi/sctpsocketmaster.cc:536` writes the remote-error tag.
- `Delivery.PiecewiseDelivery` and `Delivery.WholeRecords` assume that data records are not empty, and that
  nobody peeks at an event that has been read in part.
- The list of pre-establishment packets, kept by First and Last in the source, is a sequence.
- Addresses are searched by association ID only. Finding an association by address, path parameters,
  traffic class and the primary address are not part of this model.
- Integers that count uses, slots and ports are unbounded; none reaches its width in the source.
  What is proved of an event's bytes is for association IDs below 2^32 and stream counts below 2^16, the
  widths of their fields.
- The address text assumes strings without an embedded NUL, and a port number that fits an `int`.

Deliberately weaker or partial:

- Delivery.InternalReceive: leaves out the stream, protocol, sequence numbers and address handed back.
- Engine.SocketMaster.AssociationGarbageCollection: leaves out the abort that no caller asks for.
- Engine.SocketMaster.CommunicationLost: leaves out WriteReady, HasException and the broadcasts; the timeout is modelled in RtoMax.
- Engine.SocketMaster.ShutdownComplete: leaves out WriteReady, HasException and the broadcasts.
- Engine.SocketMaster.Notify: takes the contents of an event as bytes.
- Engine.SocketMaster.CommunicationUp: leaves out WriteReady and the broadcasts; the timeout and the waiting packets are modelled in RtoMax and PreEstablishment.
- Engine.SocketMaster.AssociateBegin: starts once sctplib has handed out an ID; the parameters are modelled in RtoMax.
- Engine.SocketMaster.SendBegin: starts once the association is found; sending to all is left out.
- Engine.SocketMaster.SendEnd: requires that an association to be removed does not wait to be accepted, because otherwise its request would name a deleted object.
- Engine.SocketMaster.Accept: leaves out the wait for a request and the peer's addresses.
- Engine.SocketMaster.CloseAssociation: leaves the socket and the listed associations to the invariant.
- Engine.SocketMaster.BindSocket: leaves out the search for a port and the errors of registering.
- Engine.SocketMaster.Unbind: leaves out what a destructor that stops the program does before it does so.
- Engine.SocketMaster.Run: skips a report or a call that cannot happen in the state reached, and a removal of an association that waits to be accepted.
- PreEstablishment.Outbox.SendTo: makes one attempt; a wait for room is followed by another attempt, between which other events may happen.
- PreEstablishment.Outbox.Run: ends with a drain that has not returned after the attempts given.
- RtoMax.Timeouts.Associate: models one association of an instance.
- Conditions.Condition.TimedWait: takes as a parameter whether a signal comes before the time is over.
- SelectWait.Register: assumes that every descriptor is an SCTP one; system descriptors watched through callbacks, and the stop at a bad descriptor, are left out.
- SelectWait.Collect: returns new sets instead of clearing bits in the ones passed, and leaves out null sets and system descriptors.
- SelectWrapper.WayBack: requires different system descriptors in the requested slots.
- SelectWrapper.Select: requires different system descriptors in the requested slots below n.
- Descriptors.DescriptorTable.NewSocket: leaves out the checks of the arguments.
- Descriptors.DescriptorTable.Close: promises ownership for every slot but 0, which stays a system descriptor.
- Descriptors.DescriptorTable.Run: skips a second connect on a descriptor, which would break ownership.
- Endpoint.Endpoint.Accept: leaves out the wait for a request.
- Endpoint.Endpoint.Connect: is the end of the call, once associate has stopped waiting, on a descriptor that was not connected before.
- Endpoint.Endpoint.Run: takes a socket's number in the table for its instance, and skips what cannot happen in the state reached.
- InternetAddress.GetAddressString: leaves out the host name, which AddressSplitter.Named puts in front.
- AddressSplitter.NamedSplits: requires a host name without an opening parenthesis.
- AddressSplitter.RoundTrip: requires a link-local address's interface without parenthesis and closing bracket, the case of AddressSplitter.PrintedSplits.
- PortScanner.Scanner.Test: takes one time for a whole round.
- PortScanner.Scanner.Scan: takes one time for a whole round.
- Tftp.SendFile: leaves out the checks of the file name and the error texts.
- Tftp.Get: assumes that writing the output file succeeds, and takes a receive error for the end of the messages.
- Tftp.StoreFile: the same.

Not modelled:

- the remaining socket options, `ext_poll`, the scatter loop of `ext_recvmsg2`, address lists, OOTB handling and the master's destructor
- the other example programs
