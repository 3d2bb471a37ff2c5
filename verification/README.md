# Verification of the ET event transfer system

ET moves a fixed pool of events, kept in shared memory, between stations, the clients attached to
them, and other ET systems. This project models the parts of it whose correctness depends on many
steps working together, and proves what they promise over all inputs, all runs and all
interleavings. `dafny verify dfyconfig.toml` checks everything.

| file | what it models |
|---|---|
| `BlasterRing.dfy` | the ring of event arrays that the blaster's two threads share: one mutex, one condition variable and one flag per slot, down to the gaps between unlock, signal and cursor advance; and the four routines of the queue as programs over it |
| `EventLists.dfy` | the linked lists of events at a station, relinked in place event by event or spliced in whole runs, with high-priority events first |
| `EventLife.dfy` | the life of events as a machine of small steps taken by any number of attachments and conductor threads: owners, lists, counters, temp buffers |
| `EventCalls.dfy` | the calls of `et_event.c` as programs over that machine's state, with the other attachments' steps between any two of their own |
| `Bridge.dfy` | carrying events from one local ET system to another in chunks, with all its error exits |
| `Attached.dfy` | that the calls of `EventCalls.dfy` are what the bridge takes them to be |
| `Wire.dfy` | the format of the monitoring data: bytes, words, strings, sparse tables, records, the whole message |
| `MonitorData.dfy` | the routines that write and read that format, the two passes over tables that change, and the walk along the two-level station chain |
| `Fifo.dfy` | an ET system used as a FIFO of entries of several events each, with clients that come and go, and the ids of the buffers of an entry |
| `AddressOrder.dfy` | ordering IP addresses by subnet with linked lists built in place |
| `ProcessTable.dfy` | the table of client processes: open with rollback, close, kill, and what happens to it when slots are taken from clients |
| `HeartMonitor.dfy` | the heart monitor that takes them: its rounds of copying and looking, with clients going on in between |
| `Options.dfy` | a value that may be missing |

An event pointer is the event's index in shared memory. `*` stands for what the program does not
decide: whether a system call works, what a station has to offer, what other threads do. A method
named `Others` is such a choice of steps of other attachments or clients; its callers are verified
against all of them.

## Where the code differs from its comments or its intent

The models follow the code. Each difference has a theorem that says exactly when it matters.

- The bridge keeps the count of the last round where it needs the sum of all rounds
  (`et_bridge.c:735`). The k-th event put carries the k-th event got exactly when a batch takes at
  most two rounds (`Bridge.RightIffTwoRounds`, `Bridge.ThreeRounds`); if every request for new
  events is filled, exactly when a batch is no larger than two chunks (`Bridge.TwoRoundsIffTwoChunks`).
- A call for new events, or a get, that fails after its read leaves its caller with events that no
  counter mentions. The bridge then keeps them (`Attached.OneIsKept`). That takes a temp event: the
  bridge keeps nothing in the "to" system if every event, and every new event asked for, fits its
  ordinary size, and nothing in the "from" system unless a temp event is among what it keeps there
  (`Bridge.Transfer`).
- When the bridge's swap function fails, the status returned is the one of the last call that
  worked. So a call that returns `ET_OK` has carried all events asked for if and only if the function
  fails on none of those its rounds have read (`Bridge.Transfer`, `Bridge.CarriedIffNoneRead`); with
  at most two rounds a batch that is all events got (`Bridge.CarriedAllIff`), and with more an event
  that cannot be swapped may be passed over unnoticed (`Bridge.FailureUnnoticed`).
- `et_events_put` and `et_events_dump` check all owners before they change any, so the check lets an
  event through that is named twice; and recycled events keep their temp flag, so an event that was
  read but never initialised may carry that of an earlier life. A put keeps the invariants of the
  whole system if and only if it is given no such event (`EventLife.WriteKeepsInvIff`). Otherwise an
  event can be in a list twice (`EventLife.TwiceListed`) and `ntemps` below zero
  (`EventLife.StaleUndercounts`). A dump removes the files of temp events first, and is refused with
  all invariants kept if one is named twice or has no file (`EventLife.RefusedKeepsInv`,
  `EventLife.StaleIsRefused`). One that gets past its removals keeps the invariants if and only if it
  is given no ordinary event twice and no stale one whose file was left over
  (`EventLife.DumpKeepsInvIff`, `EventLife.StaleIsDumped`).
- A temp file that cannot be created stays counted in `ntemps`, and one that a conductor cannot
  remove is no longer counted. When nothing is in progress `ntemps` is the number of temp files if
  and only if no creation has failed, provided the conductors could remove the files they wanted to;
  in any case it differs by exactly those (`EventLife.TempsExact`, `EventLife.FileLeftOver`).
- The conductor passes by a station that nobody is attached to, and the last detach empties it. So a
  FIFO hands over everything in order if and only if nothing is offered while no consumer is
  attached, or while a queue that does not block is full, and no last consumer leaves some unread
  (`Fifo.FirstInFirstOut`, `Fifo.NobodyServed`).
- An entry of a FIFO takes any ids for its buffers. It finds every buffer by its id if and only if
  they are distinct and -1 only at the end (`Fifo.FilledFindsIff`). Otherwise a buffer is lost if and
  only if a free one or one of the same id comes before it: asked for its id, the entry gives that
  one to it as well (`Fifo.LostIff`).
- `noSubnetMatch` also counts items whose address is faulty and which are not returned
  (`AddressOrder.MatchIsReturnedIff`, `AddressOrder.FaultyMatch`).
- A close that is refused because of attachments has already stopped the client's heart and marked
  the client closed, so that it can no longer detach. It keeps its slot until the system's heart
  monitor takes it, or until it kills or the system dies (`ProcessTable.RefusedForGood`,
  `ProcessTable.CanLeaveIff`).
- A kill or another close after the monitor has taken the slot gives back a slot that is free or
  another client's; and the monitor counts the open slots while other clients are halfway through a
  call. The table stays right over a run if and only if neither happens and no slot is taken from a
  client that has not done with it (`ProcessTable.AlwaysSoundIff`, `HeartMonitor.AlwaysRightIff`,
  `ProcessTable.KillAfterSweep`, `ProcessTable.SweepWhileOpening`).
- The monitor compares copies that it made earlier and that may be of another client. It finds a
  beating heart dead if and only if that had the same heartbeat at two copies on end, or its slot was
  opened since the last copy and the monitor has seen nothing new of the slot before
  (`HeartMonitor.LookDoomsIff`); so a client that opens a slot in the middle of a round can lose it
  though nobody does anything wrong (`HeartMonitor.SweptWhileBeating`). If nobody is late, it takes no
  slot but of clients that have died or are closing (`HeartMonitor.StaysRight`).

## Model

| member | source | states |
|---|---|---|
| BlasterRing.InitInv | src/examples/et_blaster.c:65-100 | the ring as it is set up, of any size of at least 1, satisfies the invariant |
| BlasterRing.StepKeepsInv | src/examples/et_blaster.c:123-191 | every atomic action of either thread keeps the invariant: mutex ownership, cursor ages, which slots are full and with what, pending signals |
| BlasterRing.RunKeepsInv | src/examples/et_blaster.c:585-685 | so does every interleaving, from the start state on |
| BlasterRing.ConsumedIsPrefixOfProduced | src/examples/et_blaster.c:123-191 | in every reachable state the consumed arrays are a prefix of the produced ones, at most a ring behind; the threads never hold one slot; numRead read after the unlock is that of the array in hand |
| BlasterRing.FillsAreProduced | src/examples/et_blaster.c:666-685 | in every run the arrays handed over are what the fills have made, in order: the k-th is the first so many of the events that the k-th fill has written as et_events_new_group then says, and only the last one filled may still be to hand over |
| BlasterRing.RefinesBoundedQueue | src/examples/et_blaster.c:123-191 | setting hasData enqueues, clearing it dequeues the oldest array, and no other step changes the queue, which is never longer than the ring |
| BlasterRing.NoWakeupIsLost | src/examples/et_blaster.c:126-155 | a waiter whose condition is true is about to be signalled by a thread that can go on; a slot never has two waiters |
| BlasterRing.NotBothWaiting | src/examples/et_blaster.c:126-175 | the two threads never wait at the same time, on any slots |
| BlasterRing.NeverDeadlocked | src/examples/et_blaster.c:123-191 | in every reachable state some thread can take a step, spurious wake-ups not counted |
| BlasterRing.StepLowersRank | src/examples/et_blaster.c:123-191 | every step that hands over no array lowers a bound on what is left to do |
| BlasterRing.ArraysKeepMoving | src/examples/et_blaster.c:585-685 | any 54 steps in a row, other than spurious ones, hand over an array |
| BlasterRing.Blaster.constructor | src/examples/et_blaster.c:65-100 | the slots start empty, both cursors on the first, and the invariant holds |
| BlasterRing.Blaster.RunProducer | src/examples/et_blaster.c:159-191 | one atomic piece of getEmptyArray or putDataArrayInQ changes the variables as the machine's step does |
| BlasterRing.Blaster.RunConsumer | src/examples/et_blaster.c:123-156 | the same for getDataArrayFromQ and doneWithDataArray |
| BlasterRing.Blaster.Fill | src/examples/et_blaster.c:666-685 | filling writes the events into the array the producer holds, and into no other, and the number passed on is the one et_events_new_group gives |
| BlasterRing.Blaster.LetConsumer | src/examples/et_blaster.c:123-156 | whatever the consumer does while the producer is in a call, and waits that end unasked, keep the invariant and what is the producer's |
| BlasterRing.Blaster.LetProducer | src/examples/et_blaster.c:159-191 | the same the other way round |
| BlasterRing.Blaster.GetEmptyArray | src/examples/et_blaster.c:159-175 | with any steps of the consumer before each of its own: if it ends, the array it passes back is that of an empty slot at the cursor, and nothing the producer alone changes has changed |
| BlasterRing.Blaster.PutDataArrayInQ | src/examples/et_blaster.c:177-191 | if it ends, exactly one array has been handed over, what lay in the slot, and the cursor has moved on; if not, none |
| BlasterRing.Blaster.NewEvents | src/examples/et_blaster.c:672-685 | one turn of the new-events thread, whatever the consumer does meanwhile: if it ends, exactly the events got have been handed over, as one array |
| BlasterRing.Blaster.GetDataArrayFromQ | src/examples/et_blaster.c:123-141 | if it ends, the slot it passes back holds the first array not used yet, and the number returned, read after the unlock, is how many events that has |
| BlasterRing.Blaster.Use | src/examples/et_blaster.c:587-605 | what is used is the next of the produced arrays |
| BlasterRing.Blaster.DoneWithDataArray | src/examples/et_blaster.c:143-156 | if it ends, one slot has been given back and the cursor has moved on; if not, none, and in no case is anything produced taken back |
| BlasterRing.Blaster.PutEvents | src/examples/et_blaster.c:585-605 | one turn of the main loop, whatever the producer does meanwhile: if it ends, exactly the next of the produced arrays has been used |
| EventLists.ByPriorityPermutes | src/libsrc/et_readwrite.c:883-982 | putting high-priority events first loses and duplicates none |
| EventLists.ByPriorityArranges | src/libsrc/et_readwrite.c:883-982 | where each event of a list and a batch goes: before all of lower priority, and behind those of its own that came before it |
| EventLists.ByPriorityIff | src/libsrc/et_readwrite.c:883-982 | and no other list is arranged so |
| EventLists.ByPriorityIncremental | src/libsrc/et_readwrite.c:883-982 | adding a batch to an ordered list gives the order of all arrivals together |
| EventLists.GivenChangesOnlyThose | src/libsrc/et_readwrite.c:1165-1186 | handing over events changes the owner of those and no others |
| EventLists.EtList.NWrite | src/libsrc/et_readwrite.c:883-982 | the relinked list holds old and new events by priority, first come first served within one; owners become the system; refused without effect when there is no room |
| EventLists.EtList.NRead | src/libsrc/et_readwrite.c:1062-1190 | the first events of the list, up to the number asked for, go to the reader in order, and the list keeps the rest |
| EventLists.EtList.NDump | src/libsrc/et_readwrite.c:1425-1485 | the events are appended as they come, whatever their priority |
| EventLists.EtList.TakeAll | src/libsrc/et_readwrite.c:1497-1520 | the conductor takes the whole list in order and leaves it empty |
| EventLists.EtList.Splice | src/libsrc/et_readwrite.c:1575-1630 | the high-priority run goes in whole between the high and the low events of the list, the rest behind all, which gives the order by priority of both together |
| EventLists.EtList.Deliver | src/libsrc/et_readwrite.c:1554-1640 | the conductor's write, spliced or appended, gives the input list the order by priority, counts what it wrote, and touches no other event's link |
| EventLife.StepKeepsPlaces | src/libsrc/et_event.c:1403-1437 | every step of any attachment or conductor keeps every event in exactly one place |
| EventLife.StepKeepsCounts | src/libsrc/et_event.c:506-564 | and, for each attachment, owned = made + gotten - put - dumped, up to calls in progress and events read in vain |
| EventLife.StepKeepsTemps | src/libsrc/et_event.c:39-72 | and ntemps equal to the temp events counted, claimed, not yet settled and never forgotten, within its limit; exactly the initialised events counted carry the flag |
| EventLife.StepKeepsInv | src/libsrc/et_event.c:360-1781 | all three together |
| EventLife.RunKeepsInv | src/libsrc/et_event.c:360-1781 | after every interleaving of the steps of all attachments and conductors |
| EventLife.StartedHolds | src/libsrc/et_system.c:2497-2525 | a system just started satisfies them |
| EventLife.StepGoes | src/libsrc/et_readwrite.c:883-1660 | which lists each step changes, and how: reads take the front of the station's input list; a write joins the output list of the attachment's station, behind the events of its priority; dumped and recycled events go to the end of GrandCentral's input; a conductor takes an output list whole and delivers by priority; nothing else moves |
| EventLife.WriteJoins | src/libsrc/et_event.c:1545-1550 | each event of a write is in the output list of the attachment's own station, with those of high priority first and each kind in order of arrival, and no other list has changed |
| EventLife.OnePlace | src/libsrc/et_event.c:1403-1437 | an event the system owns is in exactly one list, and an event an attachment owns is in none |
| EventLife.PoolConserved | src/libsrc/et_event.c:360-1781 | listed and owned events add up to the pool |
| EventLife.AlwaysRoom | src/libsrc/et_readwrite.c:896-902 | the room check of a write or dump never fails for events the caller owns |
| EventLife.TempsBounded | src/libsrc/et_event.c:39-72 | in every run from the start in which conductors can remove files, there are never more temp files than ntemps says, nor is that above its limit |
| EventLife.TempsExact | src/libsrc/et_event.c:54-60 | after any run from the start, nothing being in progress and no dump having given up after a removal, ntemps differs from the number of temp files by the creations that failed less the files left over; so they are equal if and only if none failed, if conductors could remove files |
| EventLife.FileLeftOver | src/libsrc/et_system.c:1957-1969 | a run in which the conductor cannot remove a file: it exists and ntemps is 0 |
| EventLife.NobodyReturns | src/libsrc/et_event.c:1505-1525 | in any run from a state in which the system owns an event, as long as nobody reads it the system owns it and nobody's put or dump names it |
| EventLife.NoDoubleReturn | src/libsrc/et_event.c:1505-1525 | so an event that was put or dumped belongs to nobody and is returned by nobody, whatever happens, until someone reads it again |
| EventLife.WriteKeepsPlacesIffDistinct | src/libsrc/et_event.c:1505-1525 | et_events_put keeps each event in one place if and only if no event is named twice |
| EventLife.WriteKeepsTempsIffNoneStale | src/libsrc/et_event.c:506-545 | putting never-initialised events keeps the temp accounts if and only if none carries an old temp flag |
| EventLife.WriteKeepsInvIff | src/libsrc/et_event.c:1505-1550 | a put's write of owned events keeps all the invariants if and only if no event is named twice and none is stale |
| EventLife.RemovalsPossibleIff | src/libsrc/et_event.c:1740-1757 | a dump can remove all it must if and only if each temp event among its events has its file and is named once |
| EventLife.RefusedKeepsInv | src/libsrc/et_event.c:1740-1757 | if not there is an event at which it is refused; and wherever a dump stops while removing, all the invariants hold and nothing has moved |
| EventLife.DumpKeepsInvIff | src/libsrc/et_event.c:1690-1782 | a dump that gets past its removals keeps all the invariants if and only if no ordinary event is named twice and no stale event still has its file |
| EventLife.TwiceListed | src/libsrc/et_event.c:1505-1525 | a run from the start after which one put of an event named twice puts it into the list twice |
| EventLife.StaleIsReachable | src/libsrc/et_readwrite.c:1523-1552 | runs from the start after which an attachment owns a stale temp event, with its file if the conductor could not remove that, and without it otherwise |
| EventLife.StaleIsRefused | src/libsrc/et_mem.c:375-391 | without its file a dump of it is refused |
| EventLife.StaleIsDumped | src/libsrc/et_event.c:1742-1771 | with its file it is dumped, and ntemps ends at -1 |
| EventLife.StaleUndercounts | src/libsrc/et_system.c:1955-1969 | if it puts that event, the conductor's clean-up takes ntemps to -1, below the number of files |
| EventLife.OthersLeaveMine | src/libsrc/et_event.c:1345-1354 | no step of anyone else changes an attachment's counters or the events it owns |
| EventCalls.EtSystem.constructor | src/libsrc/et_system.c:2497-2525 | the started system is a state the machine can start from |
| EventCalls.EtSystem.Turn | src/libsrc/et_system.c:1690-2385 | a step of someone else is a step of the machine and leaves this attachment's events alone |
| EventCalls.EtSystem.StationNread | src/libsrc/et_readwrite.c:1062-1190 | takes the first events of an input list, and leaves the rest and all other lists, or fails without effect |
| EventCalls.EtSystem.StationNwrite | src/libsrc/et_readwrite.c:883-982 | always finds room; each event is then in the output list of the attachment's station, high priority first and each kind in order of arrival, and no other list has changed |
| EventCalls.EtSystem.StationNdump | src/libsrc/et_readwrite.c:1425-1485 | always finds room, and moves the events to the end of GrandCentral's input list, as they come |
| EventCalls.EtSystem.EventMake | src/libsrc/et_event.c:33-73 | the event gets a temp buffer of the size asked for; or the caller's events are as they were, and it is a step that leaves ntemps raised if and only if the file could not be made, none if ntemps has reached its limit |
| EventCalls.EtSystem.EventsNew | src/libsrc/et_event.c:360-565 | reads once, the first events of GrandCentral's input list; on success distinct events the caller did not own, initialised to the size, and counted; on failure the events read stay with the caller uncounted, which takes a size above the ordinary one; whatever others do meanwhile |
| EventCalls.EtSystem.EventsGet | src/libsrc/et_event.c:1156-1315 | reads once, the first events of the input list of the attachment's station; on success distinct events the caller did not own, counted; not from GrandCentral; only when one read is a temp event can it fail after the read, and then the whole read is uncounted |
| EventCalls.EtSystem.EventsPut | src/libsrc/et_event.c:1465-1567 | for any pointers: refused without effect unless the caller owns all and their lengths fit; else each is marked used, in order, and all join the output list of the attachment's own station in one go, high priority first and each kind in order of arrival, no other list changing with that, and are counted, or all stay with the caller; if one is named twice or stale, the write, if there is room for it, breaks the invariants |
| EventCalls.EtSystem.EventsDump | src/libsrc/et_event.c:1690-1782 | for any pointers: refused without effect unless the caller owns all, and refused if a temp event has no file or is named twice; else exactly the temp files are removed, in order, all events go to the end of GrandCentral's input list in one go and are counted and ntemps is lowered by exactly the temp events; or some files are gone and all events stay with the caller; if one of those let through is named twice or stale, the move breaks the invariants |
| Attached.AlwaysValid | src/libsrc/et_event.c:488-545 | in every reachable state the events an attachment owns have room for the ordinary size, as the bridge assumes |
| Attached.GetMeetsPort | src/libsrc/et_event.c:1156-1315 | what a get leaves an attachment with is what the bridge's Get may, strays and all |
| Attached.NewMeetsPort | src/libsrc/et_event.c:360-565 | and so for new events |
| Attached.ReturnMeetsPort | src/libsrc/et_event.c:1465-1782 | after a put or dump it owns what it did but those |
| Attached.RefusalMeetsPort | src/libsrc/et_event.c:1465-1782 | and after one that failed, what it did |
| Attached.AmissMeetsPort | src/libsrc/et_event.c:1465-1782 | and so it is of a put or dump that breaks the invariants |
| Attached.GivenIsReturnable | src/libsrc/et_event.c:488-545 | new events that came without a failure are distinct and not stale, so that giving them back breaks nothing |
| Attached.OneIsKept | src/libsrc/et_bridge.c:640-658 | a run from the start in which a larger event that cannot be made takes the place of the one it should replace: in the end the attachment owns an event and its counters say none |
| Bridge.Port.Get | src/libsrc/et_event.c:1156-1315 | a get as its caller sees it: new distinct events; or a failure, which may leave strays only if a temp event is among them |
| Bridge.Port.NewMany | src/libsrc/et_event.c:360-565 | the same for new events of a size; strays only if it is above the ordinary size |
| Bridge.Port.New | src/libsrc/et_event.c:124-322 | one new event into one place of an array, which a late failure overwrites; that takes a size above the ordinary one |
| Bridge.Port.Put | src/libsrc/et_event.c:1465-1567 | all events go back and are sent, or none; only for distinct events the caller owns |
| Bridge.Port.Dump | src/libsrc/et_event.c:1690-1782 | all events go back unsent, or none |
| Bridge.CopyEvent | src/libsrc/et_bridge.c:664-709 | the new event holds the converted payload of the one got; it fails if and only if the swap function does on an event whose tag is wrong |
| Bridge.FillOne | src/libsrc/et_bridge.c:631-710 | one turn of the innermost loop, within all three arrays: filled, or given up with everything accounted for, including the event in both arrays |
| Bridge.GiveUp | src/libsrc/et_bridge.c:642-658 | the error exits hand back everything outstanding, put the events already filled, and return nothing twice |
| Bridge.PutRound | src/libsrc/et_bridge.c:712-742 | the end of a round: put, then dump, with the exits of either |
| Bridge.Round | src/libsrc/et_bridge.c:602-743 | a round carries what it says from the offset it was given; on every exit nothing is kept but what was read in vain |
| Bridge.CarryBatch | src/libsrc/et_bridge.c:584-753 | a batch carries exactly what the offsets of its rounds say |
| Bridge.Transfer | src/libsrc/et_bridge.c:537-762 | terminates; the j-th event put is the j-th one its rounds have drawn: its length, priority and control words, and, if there is a swap function and its tag is not that of the host's order, what the function makes of its data, told whether they are in this host's order, with the tag swapped, else the same data and tag; so with a swap function and proper tags everything put has tag 0x04030201 if the host's order is the same and 0x01020304 if not; ntransferred is exactly the number of events put, on every exit, no batch or round above its chunk; ET_OK means num events or a failure of the swap function on the event that the last round had reached; attachments keep nothing but strays if its own puts and dumps work, and none where no temp event is needed |
| Bridge.CarriedIffNoneRead | src/libsrc/et_bridge.c:602-760 | a call that returned ET_OK carried all events asked for if and only if the swap function fails on none that its rounds have read and whose tag is wrong, however many rounds there were |
| Bridge.CarriedAllIff | src/libsrc/et_bridge.c:664-760 | and with at most two rounds a batch, if and only if it fails on none of those got |
| Bridge.FailureUnnoticed | src/libsrc/et_bridge.c:631-742 | three rounds carry "all" of a batch whose third event cannot be swapped |
| Bridge.RightIffTwoRounds | src/libsrc/et_bridge.c:735-742 | a batch is carried in order if and only if it took at most two rounds |
| Bridge.ThreeRounds | src/libsrc/et_bridge.c:735-742 | three rounds of one event send the second twice and lose the third |
| Bridge.TwoRoundsIffTwoChunks | src/libsrc/et_bridge.c:615-618 | with every request filled, two rounds suffice if and only if the batch is at most two chunks |
| Bridge.AllInOrder | src/libsrc/et_bridge.c:584-753 | if no batch took more than two rounds, what was put over the whole call is what was got, converted, in order and without gap |
| Bridge.SmallChunksInOrder | src/libsrc/et_bridge.c:584-753 | with filled requests and a chunk to get of at most two chunks to put, so is every call |
| Bridge.InTurnIsRight | src/libsrc/et_bridge.c:602-743 | were the offset the sum of all rounds, a batch would be carried in order whatever its rounds |
| Bridge.ArrivesAsItShould | src/libsrc/et_bridge.c:664-709 | the byte-order tag arrives as it should be, flips exactly when data were swapped, and length, priority and control words arrive unchanged |
| Bridge.SwapTwice | src/libsrc/et.h:261-265 | swapping a word twice gives it back |
| Wire.TableBack | src/libsrc/et_data.c:711-717 | a table of attachments, sparse with entry i being -1 or i, survives being sent compactly |
| Wire.RecBack | src/libsrc/et_data.c:604-669 | reading a record of words and strings gives them back and stops at its last byte |
| Wire.SysLossless | src/libsrc/et_data.c:604-669 | the system record: every field is read from where it was written, with any number and length of addresses |
| Wire.StatLossless | src/libsrc/et_data.c:677-752 | the station record, with its table in the middle |
| Wire.AttLossless | src/libsrc/et_data.c:758-801 | the attachment record |
| Wire.ProcLossless | src/libsrc/et_data.c:807-840 | the process record |
| Wire.WordsAreBig | src/libsrc/et_data.c:151-230 | a word is sent as four bytes, the most significant first |
| Wire.SysLayout | src/libsrc/et_data.c:151-244 | which word of a system record each field is, in two's complement, and that its strings follow the words and lengths |
| Wire.StatLayout | src/libsrc/et_data.c:308-377 | the same for a station, behind however many attachments, with its four strings in order at the end |
| Wire.AttLayout | src/libsrc/et_data.c:462-500 | the same for an attachment |
| Wire.ProcLayout | src/libsrc/et_data.c:571-585 | the same for a process |
| Wire.CompactAscends | src/libsrc/et_data.c:312-316 | attachments are sent in ascending order |
| Wire.CountedBack | src/libsrc/et_data.c:905-968 | a counted list of records is read back whole, for any reader that undoes its writer |
| Wire.EtFaithful | src/libsrc/et_data.c:140-840 | all four readers undo their writers |
| Wire.MessageBack | src/libsrc/et_data.c:846-975 | reading undoes writing for the whole message, whatever follows it, and stops at its last byte |
| Wire.MessageUnique | src/libsrc/et_server.c:2816-2848 | no two messages look alike, even with more behind them |
| Wire.MessageLayout | src/libsrc/et_data.c:846-975 | a message is the system's record, and then for stations, attachments and processes, in this order, their number and their records |
| MonitorData.ReadRec | src/libsrc/et_data.c:611-669 | the loops over words and strings read the record |
| MonitorData.ReadTable | src/libsrc/et_data.c:711-717 | the decoding loop fills the table |
| MonitorData.ReadStat | src/libsrc/et_data.c:677-752 | the station reader |
| MonitorData.ReadProc | src/libsrc/et_data.c:807-840 | the process reader |
| MonitorData.WriteRec | src/libsrc/et_data.c:185-245 | the loops of the encoders write the record |
| MonitorData.WriteTable | src/libsrc/et_data.c:312-316 | the encoding loop leaves out exactly the empty entries |
| MonitorData.WriteStat | src/libsrc/et_data.c:308-377 | the station writer |
| MonitorData.WriteProc | src/libsrc/et_data.c:570-590 | the process writer |
| MonitorData.DataGet | src/libsrc/et_data.c:846-975 | the parse order of the whole message |
| MonitorData.Received | src/libsrc/et_data.c:846-975 | what is received is what was sent, and reading ends with the buffer |
| MonitorData.FillUsed | src/libsrc/et_data.c:455-515 | the fill pass writes the used entries up to the first count, and counts one more when there are more |
| MonitorData.UsedAre | src/libsrc/et_data.c:455-515 | what the passes call the used entries: all slots in use, in their order |
| MonitorData.DataSlots | src/libsrc/et_data.c:415-600 | whatever appeared or vanished between the passes, the count in front is the number of records, at most the first count |
| MonitorData.RebuildFlat | src/libsrc/et_data.c:335-345 | the mark on parallel heads lets the two-level chain be rebuilt from the flat list |
| MonitorData.ChainUnique | src/libsrc/et_data.c:335-345 | so the flat list determines the groups |
| MonitorData.CountStations | src/libsrc/et_data.c:271-285 | the first walk ends and counts every station of the chain |
| MonitorData.Follow | src/libsrc/et_data.c:379-395 | from each station the second walk goes to the next of its group, or to the next group |
| MonitorData.FillStations | src/libsrc/et_data.c:300-396 | the second walk ends and writes every station once, each parallel group behind its head, up to the first count; a station's flow mode is told as 2 if and only if it is the first of a group of parallel (1) ones, and is its own otherwise; all else is told as it is |
| MonitorData.DataStats | src/libsrc/et_data.c:256-410 | with the chain changed in between, the count in front is still the number of records that follow; and the records tell of the stations of the later chain in that way |
| Fifo.CueHoldsEntries | src/execsrc/et_start_fifo.c:343-348 | the Users cue is a whole number of entries, and leaves out a twentieth of them, rounded down, but at least two |
| Fifo.StepRefines | src/libsrc/et_fifo.c:421-650 | the system moving single events and the FIFO of entries can take the same steps, to the same states, clients attaching and detaching and conductors passing an idle station by included: no step tears an entry |
| Fifo.RunRefines | src/libsrc/et_fifo.c:421-650 | and so for whole runs |
| Fifo.FifoOfEntries | src/execsrc/et_start_fifo.c:209-348 | a system that et_start_fifo started is a FIFO of entries whatever clients and conductors do |
| Fifo.WholeEntries | src/libsrc/et_fifo.c:433-444 | in every reachable state all lists hold whole entries and a client holds nothing or one whole original entry, so newEntry and getEntry never come up short |
| Fifo.OfferLetsIn | src/libsrc/et_system.c:1885-1901 | what an offer lets into Users: nothing while no consumer is attached, everything if it blocks or has room for all, else as many of the oldest as fit the cue |
| Fifo.DetachReturns | src/libsrc/et_station.c:1126-1160 | what a client holds goes back sorted, to GrandCentral from a producer and on from Users from a consumer; and the last consumer's detach flushes the queue before it |
| Fifo.StepKeepsInv | src/libsrc/et_fifo.c:421-650 | no entry is created, lost or in two places, and Users never holds more than its cue |
| Fifo.RunKeepsInv | src/libsrc/et_fifo.c:421-650 | in every reachable state |
| Fifo.InOrderIff | src/libsrc/et_fifo.c:544-565 | in every run of the FIFO of entries: all that was put has been gotten or is still queued or on its way, in the order it was put, if and only if no step let something past the consumers |
| Fifo.FirstInFirstOut | src/libsrc/et_fifo.c:544-565 | the same of every run of the system of events that et_start_fifo started: in order and complete if and only if no offer is made while no consumer is attached, or of more than there is room for when Users does not block, and no last consumer leaves some unread |
| Fifo.OneStayingConsumer | src/libsrc/et_station.c:1126-1138 | in a blocking FIFO, a consumer that attaches first and stays is enough, whoever else comes and goes |
| Fifo.NobodyServed | src/libsrc/et_system.c:1803-1804 | a producer alone, in a FIFO of any sizes: its entry goes back unread, behind all others |
| Fifo.NotStarved | src/execsrc/et_start_fifo.c:332-348 | if the clients hold fewer entries than the queue leaves free, one is on its way to the producers |
| Fifo.ProducerIsServed | src/execsrc/et_start_fifo.c:332-348 | then, in whatever order the conductors take their steps, they are done within a bound, and an attached empty-handed producer can have an entry |
| Fifo.NeverStarves | src/execsrc/et_start_fifo.c:332-348 | so in every reachable state of the nonblocking system of events, if the clients hold fewer events than the queue leaves free |
| Fifo.OpenFindsCapacity | src/libsrc/et_fifo.c:180-192 | the capacity worked out at open is the one the system was started with |
| Fifo.Entry.Fill | src/libsrc/et_fifo.c:446-456 | a new entry has the given ids first, whatever they are, -1 after, and empty buffers |
| Fifo.Entry.GetBuf | src/libsrc/et_fifo.c:869-890 | the buffer found is the first with the id or free, which is then the id's; nothing else changes |
| Fifo.GetIsMap | src/libsrc/et_fifo.c:869-890 | so with distinct ids an entry is a map: a known id gives its buffer, a new one the next free buffer, and none exactly when all are taken |
| Fifo.FilledFindsIff | src/libsrc/et_fifo.c:446-456 | a new entry finds every buffer by the id it was given if and only if the ids are distinct and -1 only at the end |
| Fifo.LostIff | src/libsrc/et_fifo.c:869-890 | with any ids, a buffer is lost if and only if a free one or one of the same id comes before it; that one is found instead and has the id from then on |
| Fifo.BuffersHold | src/libsrc/et_fifo.c:869-890 | distinct ids have distinct buffers, and the used ones come first |
| Fifo.BuffersGrow | src/libsrc/et_fifo.c:869-890 | giving a new id a buffer takes none away |
| AddressOrder.Compare | src/libsrc/etCommonNetwork.c:3211-3235 | the search for a local subnet, and what ends it |
| AddressOrder.LocalIff | src/libsrc/etCommonNetwork.c:3211-3235 | an address is local if and only if its broadcast address is proper and that of an interface before which none lacks one |
| AddressOrder.Chain.PutFirst | src/libsrc/etCommonNetwork.c:3256-3280 | linking in place at the head keeps the list and its ends |
| AddressOrder.Chain.PutLast | src/libsrc/etCommonNetwork.c:3263-3286 | and at the tail |
| AddressOrder.Chain.Join | src/libsrc/etCommonNetwork.c:3303-3320 | joining two lists gives one that ends |
| AddressOrder.OrderIpAddrs | src/libsrc/etCommonNetwork.c:3189-3321 | the returned list is linked without a cycle and holds each proper address once: those on the preferred subnet first and those on no local subnet last; within the first two kinds the last given comes first, in the third they keep their order; the match flag is 1 if and only if a subnet is preferred and no item is on it |
| AddressOrder.FoldIs | src/libsrc/etCommonNetwork.c:3256-3287 | one address at a time, the two lists come to that order |
| AddressOrder.OrderedArranges | src/libsrc/etCommonNetwork.c:3256-3287 | the order, by which item each place of the list holds |
| AddressOrder.OrderedHasAll | src/libsrc/etCommonNetwork.c:3237-3254 | every address of proper length is returned once, and no other |
| AddressOrder.MatchIsReturnedIff | src/libsrc/etCommonNetwork.c:3291-3299 | the match flag speaks of the returned list if and only if a match, if any, has a proper address |
| AddressOrder.FaultyMatch | src/libsrc/etCommonNetwork.c:3223-3242 | an item with no address counts as a match and is not returned |
| ProcessTable.StepKeepsSoundIff | src/libsrc/et_local.c:230-625 | a step of any client, or a clean-up of any slot at any time, keeps slots and holders one to one, each status what its holder last set, and nprocesses the number of slots taken, if and only if no client gives back a slot taken from it, none is taken from a client not done with it, and no open slots are counted while another client is halfway |
| ProcessTable.AlwaysSoundIff | src/libsrc/et_system.c:850-975 | and so for whole runs, whoever dies, is refused or is swept meanwhile, and whatever monitor does it |
| ProcessTable.StartedSound | src/libsrc/et_system.c:610-620 | the table of a started system is right |
| ProcessTable.HoldersCounted | src/libsrc/et_local.c:230-256 | in a table that is right no two holders share a slot, and nprocesses is their number |
| ProcessTable.OthersLeaveMine | src/libsrc/et_local.c:230-625 | no harmless step of anyone else touches a client that holds a slot, nor the slot, but for a clean-up after its heart has stopped |
| ProcessTable.StaleIffSwept | src/libsrc/et_system.c:850-975 | along such runs a client has lost its slot if and only if the monitor took it since |
| ProcessTable.RefusedForGood | src/libsrc/et_local.c:470-507 | after a refused close slot and attachments stay, through any harmless run, until the monitor takes the slot, the client kills, or the system has died |
| ProcessTable.CanLeaveIff | src/libsrc/et_local.c:463-560 | a client that holds a slot of a living system can give it back by detaching and closing if and only if it was not refused before or has nothing attached |
| ProcessTable.RefusedIsReachable | src/libsrc/et_local.c:470-507 | a run from the start to a client refused with its attachment in the table |
| ProcessTable.KillAfterSweep | src/libsrc/et_local.c:597-601 | a run from there, through the monitor's sweep and another client's open, to a kill that frees the other client's slot while that runs on |
| ProcessTable.SweepWhileOpening | src/libsrc/et_system.c:1364-1385 | a run in which the monitor counts while a client is opening: a slot is taken and nprocesses is 0 |
| ProcessTable.Table.FindSlot | src/libsrc/et_local.c:233-241 | finds the first free slot unless the table is full |
| ProcessTable.Table.Claim | src/libsrc/et_local.c:230-257 | takes the first free slot and counts it, or changes nothing |
| ProcessTable.Table.Release | src/libsrc/et_init.c:59-73 | initialises the client's slot and lowers the count |
| ProcessTable.Table.Sweep | src/libsrc/et_system.c:905-965 | the monitor's clean-up of one slot, with the loop that counts the open slots again |
| ProcessTable.Table.Open | src/libsrc/et_local.c:230-288 | leaves the client running in a slot, or without one if there was none or a thread could not be started, having done no more than claim and release, whatever others do in between |
| ProcessTable.Table.StationAttach | src/libsrc/et_station.c:881-1029 | gives the client's slot one attachment, and is refused once the client counts as closed |
| ProcessTable.Table.StationDetach | src/libsrc/et_station.c:1053-1175 | takes one away, and is refused likewise |
| ProcessTable.Table.Close | src/libsrc/et_local.c:463-528 | its steps are exactly those of the source; in a table that stays right, and unless the monitor takes the slot meanwhile, it is refused exactly when the system lives and the client is attached; whatever others do |
| ProcessTable.Table.ForcedClose | src/libsrc/et_local.c:534-560 | likewise frees the slot of a living system's client unless a close was refused before and something is attached |
| ProcessTable.Table.Kill | src/libsrc/et_local.c:563-625 | detaches from what will let go and gives a slot back in any case; the table stays right only if that slot was still its own |
| HeartMonitor.Projects | src/libsrc/et_system.c:813-975 | what the table goes through, with the monitor's rounds and all clients' steps in any order, is a run of the table |
| HeartMonitor.AlwaysRightIff | src/libsrc/et_system.c:813-975 | so the table is right all along if and only if no step of it is harmful |
| HeartMonitor.StepKeepsInv | src/libsrc/et_system.c:840-884 | what the monitor has recorded of a slot whose holder's heart beats: nothing if it was opened since the last copy, else what it copied then, or before that if it has not yet looked |
| HeartMonitor.LookDoomsIff | src/libsrc/et_system.c:851-873 | it finds a beating heart dead if and only if that had the same heartbeat at two copies on end, or its slot was opened since the last copy and what is remembered of it is what is recorded |
| HeartMonitor.SweptBeating | src/libsrc/et_system.c:875-975 | and takes the slot of one only if that was opened since the last copy or had stalled |
| HeartMonitor.SilentIsFound | src/libsrc/et_system.c:851-873 | a slot whose heartbeat does not change is found dead in the second round at the latest |
| HeartMonitor.StaysRight | src/libsrc/et_system.c:813-975 | from the start on: if every client has a time of its own, none takes or opens a slot found dead or opens one still to be looked at, every heart beats between two copies, no client acts on a slot taken from it and none is halfway at a clean-up, then the table stays right and what is found dead is never a client whose heart beats |
| HeartMonitor.SweptWhileBeating | src/libsrc/et_system.c:840-873 | a run along which the table is right until the monitor takes the slot of a client whose heart beats, since that opened it between copy and look |
| HeartMonitor.DeadHalfwayStays | src/libsrc/et_system.c:850-853 | a client that died halfway through a call is not found any more, and no clean-up of another is harmless |

## Left out

- Sockets, interface discovery, host lookup and the stream wrappers: system calls.
- `remoteET_2_ET` and `ET_2_remoteET`: the chunking of the local bridge mixed with network framing.
- Mapping of files and page rounding (`et_mem.c`): temp buffers are modelled as calls that may fail.
- Clocks, timed waits and the sleeping retry loop for temp events: the retries are any finite number, since the source resets its try count and need not end. The times at which clients take slots are parameters, and how often hearts beat between the monitor's rounds is any number.
- Repair of lists, stations and mutexes after a crash, station selection functions, prescale, and reading by group. What a detach does with events is modelled for the two stations of a FIFO only.
- The single-event calls of `et_event.c`: they are their array versions for one event.
- EventCalls.EtSystem.EventsPut: what other attachments and conductors do after a write that has broken the invariants is not followed, since nothing is left for them to rely on; nor do other attachments' own puts and dumps, as steps of the machine, ever break them.
- EventCalls.EtSystem.EventsDump: the same after a dump's move.
- Attached.GivenIsReturnable: does not cover an event left by a late failure, which the bridge dumps as well; it may be stale, and then the dump is refused or breaks the invariants as EventLife.DumpKeepsInvIff says.
- BlasterRing.Blaster.GetEmptyArray: need not end, nor need the other three routines of the queue; each is given a patience, and what it has done when that is used up is stated too. That some thread always goes on is BlasterRing.ArraysKeepMoving.
- ProcessTable.Table.StationDetach: a client detaches its own attachments; an id that another client's slot holds is not modelled.
- ProcessTable.Table.Kill: the kill of the system itself, whose bit et_kill sets, and what becomes of its table then; nor a last heartbeat of the killed client after its slot is free.
- HeartMonitor.StepKeepsInv: the monitor's round is a machine of steps, its four arrays sequences, and not a loop over arrays; the clean-up's repairs of stations and attachments are not part of it.
- Two threads calling for one attachment at the same time: an attachment makes one call at a time.
- The fields `datastatus`, `pointer`, `modify` and the data of events in `EventLife`: no step there depends on them. `et_events_put` stores the age in `modify` in case its write fails, which for owned events never happens.
- The order in which a conductor offers events to stations is not fixed: any choice of events and stations is a step.
- Buffer sizes in the encoders: what is written and read, not the size of the allocation.
- Chains and tables that change while one pass walks them: they change between the passes.
- Readers of malformed messages: a reader that runs past the end of its buffer, which the source does not check, reads zeros here.
- Strings keep to their declared lengths; fixed-size string buffers are not modelled.
- Failure of `calloc` in the address orderer and the bridge.
- The events of FIFO entries keep their low priority, and a client holds at most one entry at a time.
- `et_fifo_open` beyond the sizes it works out, `et_fifo_allHaveData` and the accessors of the FIFO.
- The update of `nprocesses` without the lock when the system is already dead.
- Configuration setters and getters, the text monitor, option parsing and statistics.
