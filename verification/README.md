# unbound-wasm, verified

unbound-wasm runs the Unbound resolver as a WebAssembly guest inside a Go host. The host owns
sockets, timers, randomness and the life of the sandbox; the guest is driven by events. This
project models that machinery and proves what it is meant to keep, over all inputs, all schedules
and all runs. `dafny verify dfyconfig.toml` checks everything.

| file | what it is about |
|---|---|
| `Lifecycle.dfy` | Runtime and Instance open and close, the zygote template and guest calls, as a machine of interleaved steps |
| `LockOrder.dfy` | the lock skeletons of every host entry point and goroutine; no reachable deadlock |
| `Leb128.dfy`, `DataSegments.dfy` | the data-segment parser against an encoder of module trees, both ways |
| `LinearMemory.dfy`, `Zygote.dfy` | clones: instantiate over the template image, restore, get the image |
| `GuestEvents.dfy`, `IoDispatch.dfy`, `EventBackend.dfy` | the guest's event backend: a linked list of events whose callbacks add and free events while they are dispatched |
| `EventQueue.dfy`, `TimerProtocol.dfy` | the host's bounded event queue, and timers and deliveries across host and guest |
| `SocketTable.dfy`, `Streams.dfy`, `Wakeups.dfy`, `Egress.dfy` | sockets: two tables in bijection, streams that lose nothing, no lost wakeup, and where packets may go |
| `Batch.dfy`, `Answer.dfy` | resolving a batch over the guest's result slots, and reading an answer |
| `Ports.dfy`, `RandomMax.dfy`, `HashBuffer.dfy` | the port bitmap, bounded random numbers, the hash buffer |

Concurrency is a step function over an explicit state: a theorem about "any schedule" quantifies
over every sequence of enabled steps. Code that updates things in place is a class or a method
with a loop, proved equal to a function on values, and the properties are proved about that
function. Loops that wait for the outside (events, entropy) take a finite script of what the
outside does; the end of the script is the caller giving up.

Five properties that one might expect do not hold of the code. Each is given with a run that
breaks it and with the exact condition under which it holds: Runtime.Close's last sweep can free
a module that is in use (`Lifecycle.FinalSweepIsSafeExactly`), a host import can find its own
instance gone from the registry and panic (`Lifecycle.LookupSucceedsExactly`), a receive into an
unwritable buffer can lose a wakeup (`Wakeups.ReceiveLosesWakeupExactly`), socket ids wrap after
2^31 - 1 opens (`SocketTable.BijectionSurvivesExactly`), and the template's socket check passes on
an instance that has shut down, whatever its slots hold (`SocketTable.ShutdownHidesSlots`).

## Model

| member | source | states |
|---|---|---|
| `Lifecycle.StepKeeps` | runtime.go:101-202 | every enabled step of every thread keeps the lifecycle invariant: who may hold a guest lock, who owes the closing of which module, and what each program counter may rely on |
| `Lifecycle.RunKeeps` | runtime.go:101-202 | the invariant holds after any schedule of NewInstance, guest blocks, Instance.Close and Runtime.Close |
| `Lifecycle.GuestBlockIsSafe` | host.go:71-93 | in every reachable state a running guest block belongs to a published instance that is not dead, nobody else holds its lock, and its module is open exactly if the final sweep has not torn it |
| `Lifecycle.StepIsMonotone` | host.go:85-93 | dead instances stay dead and a swept registry stays swept, step by step |
| `Lifecycle.ClosedForEver` | host.go:85-93 | the same over any schedule: no guest block is let in after closeModule |
| `Lifecycle.RegistryStaysEmpty` | runtime.go:157-166 | once Runtime.Close has taken the states, no instance is registered again, whatever runs later |
| `Lifecycle.NothingLeaks` | runtime.go:116-127 | when Runtime.Close has returned and all calls are over, every module ever instantiated is closed and so is the zygote file |
| `Lifecycle.FinalSweepIsSafeExactly` | runtime.go:718-725 | as wazero.Close starts, an instance is still in use if and only if an Instance.Close unregistered it before the sweep and has not closed its module yet |
| `Lifecycle.FinalSweepCanFreeModuleInUse` | runtime.go:122-122 | a schedule in which the final sweep closes a module inside a running guest block |
| `Lifecycle.LookupSucceedsExactly` | runtime.go:247-255 | inside a guest block of a module not yet torn down, a host import finds its instance if and only if Runtime.Close has not captured it and no Instance.Close stands between unregistering it and closing its module |
| `Lifecycle.StartLookupSucceedsExactly` | runtime.go:176-177 | while a module is being instantiated, its start function finds its instance if and only if Runtime.Close has not captured it |
| `Lifecycle.LookupCanFail` | runtime.go:251-253 | a schedule in which a guest block runs on an unregistered instance, so that any host import panics |
| `LockOrder.SomeoneCanMove` | host.go:67-93 | if every thread follows the rank order, then from any thread that has work left one finds a thread that can take a step |
| `LockOrder.NoDeadlock` | host.go:111-152 | no state of any run of the host's threads is deadlocked, waiting writers and Once.Do included |
| `LockOrder.RunIsDisciplined` | host.go:111-152 | in every run every thread takes locks in strictly increasing rank |
| `LockOrder.RunExcludes` | host.go:71-93 | in every run two threads hold one lock only if both hold it for reading |
| `LockOrder.ShutdownOf` | host.go:135-152 | shutdown's locks rank above 2, so it may be called under guestMu and r.mu |
| `LockOrder.Enqueue` | host.go:111-125 | enqueue's locks rank above 2: failing the instance from inside a guest call respects the order |
| `LockOrder.SendTo` | sockets.go:236-284 | a datagram or stream send, with its lookup and every early return, respects the order |
| `LockOrder.Send` | sockets.go:222-234 | sockSend looks the socket up and locks it, and again inside sockSendTo, in the order |
| `LockOrder.SockCall` | sockets.go:144-375 | every socket import, sends included, locks a socket and enqueues without breaking the order |
| `LockOrder.HostCall` | runtime.go:247-255 | any host import may run under guestMu |
| `LockOrder.GuestBlock` | host.go:71-78 | a guest block with any host imports inside may run under zygoteOnce |
| `LockOrder.InstanceClose` | runtime.go:718-725 | Instance.Close follows the order even inside zygoteOnce |
| `LockOrder.MakeInstance` | runtime.go:153-245 | making an instance, with its refusals, its start function's host imports, and the branch that finds the state already swept, follows the order even inside zygoteOnce |
| `LockOrder.InitZygote` | zygote.go:51-128 | the zygote's initialization, with every early return, follows the order inside zygoteOnce |
| `LockOrder.CloseEach` | runtime.go:116-121 | Runtime.Close's loop over the states follows the order |
| `LockOrder.Skeleton` | runtime.go:101-148 | every entry point and goroutine of the host starts with nothing held and respects the order |
| `LockOrder.SkeletonIsRanked` | runtime.go:101-148 | so every entry point is one of the ranked programs that `NoDeadlock` is about |
| `Leb128.ReadULeb` | zygote.go:178-193 | the loop returns what the decoder function says, for every byte string and position |
| `Leb128.ReadSLeb` | zygote.go:226-242 | the same for the signed loop with its sign extension |
| `Leb128.ULebIsUnsigned` | zygote.go:178-193 | the unsigned decoder succeeds if and only if a LEB128 number of at most ten bytes stands there, and returns the number it spells modulo 2^64 and its end |
| `Leb128.SLebIsSigned` | zygote.go:226-242 | the signed decoder, both ways: at most ten bytes, the two's complement value in 64 bits |
| `Leb128.LebPrefixFree` | zygote.go:178-193 | no LEB128 number is a proper prefix of another |
| `Leb128.SignExtension` | zygote.go:236-241 | or-ing ones above the last group gives the two's complement value modulo 2^64 |
| `DataSegments.ReadSegment` | zygote.go:212-258 | one turn of the segment loop is the segment parser |
| `DataSegments.ReadSegments` | zygote.go:211-259 | the segment loop is the recursive segment parser |
| `DataSegments.ReadBody` | zygote.go:207-210 | the count and then the segments |
| `DataSegments.ReadSection` | zygote.go:196-260 | one turn of the section loop, data section or not, is the section parser |
| `DataSegments.ParseDataSegments` | zygote.go:172-263 | the whole method is the parser function and never indexes outside the bytes |
| `DataSegments.RoundTrip` | zygote.go:172-263 | parsing an encoded module tree gives exactly its segments' ranges, in order |
| `DataSegments.ParsesExactlyEncodings` | zygote.go:172-263 | a byte string parses to some ranges if and only if it is the encoding of a module tree with these ranges |
| `DataSegments.WellFormedModulesParse` | zygote.go:169-171 | every module whose data segments are active with constant offsets parses, padded LEB128 included |
| `DataSegments.SegmentRangeIsTheSpecified` | zygote.go:243-258 | for a well-formed segment the range is the specified offset and the length of its data |
| `LinearMemory.LinearMemory.constructor` | memory_unix.go:57-77 | both allocators start with the image as contents; the reservation is used exactly if it is large enough and maps |
| `LinearMemory.LinearMemory.Reallocate` | memory_unix.go:87-122 | for any size, also below the current one: the contents are the bytes ever exposed, followed by zeros, cut to the new size; a reservation moves nothing, never shows less than the image, and fails only past its end |
| `LinearMemory.LinearMemory.Write` | zygote.go:145-149 | a write replaces exactly its range, or nothing if it does not fit |
| `Zygote.InstantiatedAgrees` | zygote.go:130-133 | writing overlapping segments over the image changes nothing outside their ranges |
| `Zygote.RestoredBytes` | zygote.go:145-149 | restoring sets the covered bytes to the image and leaves the others |
| `Zygote.RestoredIsImageExactly` | zygote.go:145-149 | restoring yields the image if and only if memory agreed with it outside the restored ranges |
| `Zygote.CloneEqualsTemplate` | zygote.go:134-167 | for every module that parses and every image its segments fit in, instantiating over the image and restoring the parsed ranges yields the image |
| `Zygote.CheckRanges` | zygote.go:103-108 | the loop decides whether every segment lies inside the image |
| `Zygote.InitZygote` | zygote.go:51-128 | an error is recorded exactly if the module parses and the warmed template is unfit (not made, warmup failed, sockets or timers left, memory unreadable, a segment outside it); a template exists exactly if it is fit and its file was created, written and mapped; the file stays open exactly with a template |
| `Zygote.WriteSegments` | zygote.go:130-133 | instantiation writes the segments in order |
| `Zygote.RestoreSegments` | zygote.go:145-149 | the loop restores all ranges from the image |
| `Zygote.NewClone` | zygote.go:134-154 | a clone is made exactly if the module's minimum fits the image, and its memory then equals the image at every byte, for either allocator |
| `GuestEvents.MemoryKept` | backends/event.c:62-108 | every event operation keeps the memory invariant: linked events are allocated, distinct and not freed, and only the event whose callback runs is firing |
| `GuestEvents.HistoryKept` | backends/event.c:62-108 | every event operation keeps the history: a release is the last thing that happens to an event, and released events are exactly the ones no longer allocated |
| `GuestEvents.TimersKept` | backends/event.c:44-108 | every event operation keeps timers owned: no two events share a host timer, unlinked events have none, live host timers have an owner |
| `GuestEvents.RunOpsKeeps` | backends/event.c:190-194 | any callback body, adding and freeing events at will, keeps all three and only extends the history |
| `GuestEvents.BeginKeeps` | backends/event.c:217-220 | marking an event dispatched and firing keeps the invariant, now with that event on the stack |
| `GuestEvents.FinishKeeps` | backends/event.c:222-225 | after the callback the invariant holds with nothing on the stack, whether or not the callback freed its own event |
| `IoDispatch.FireKeeps` | backends/event.c:217-225 | one turn of the dispatch loop keeps the invariant and adds exactly one call of that event's callback |
| `IoDispatch.DeliverKeeps` | backends/event.c:209-226 | the dispatch loop from any point of a delivery, for any callbacks |
| `IoDispatch.IoReadyDelivers` | backends/event.c:200-227 | for any callbacks a delivery terminates and touches no released event; it fires only events linked at the start or created since, each at most once and active and matching when called; and afterwards every linked event that is active and matches has fired |
| `IoDispatch.QuietDelivery` | backends/event.c:200-227 | if callbacks leave the events alone, exactly the ready events fire, in list order |
| `TimerProtocol.AddIsTwoSteps` | backends/event.c:51-60 | an add is the stop of its old timer followed by an add that starts one, so a host step may fall between |
| `TimerProtocol.TimerFiredKeeps` | backends/event.c:229-243 | a timer delivery keeps the invariant, and no event stays armed with the delivered timer |
| `TimerProtocol.OwnerIsArmed` | backends/event.c:230-233 | the list search finds exactly the event that the history says is armed with the timer |
| `TimerProtocol.StepKeeps` | host.go:382-430 | every step keeps the protocol's invariant: one event operation of guest code, one critical section of an expiry goroutine, a post, the dispatcher taking or discarding an event, the call or return of one callback, shutdown |
| `TimerProtocol.RunKeeps` | host.go:382-430 | the invariant over any interleaving of these steps, expiry and shutdown in the middle of a callback included |
| `TimerProtocol.TimerEventsAreExact` | backends/event.c:229-243 | in every reachable state the delivery of a timer event calls exactly the event armed with it, and a stale one changes nothing |
| `TimerProtocol.TimersHaveOneOwner` | host.go:396-417 | in every reachable state, inside callbacks too, a live host timer belongs to exactly one linked event, and until shutdown every armed timer is still running, expiring, queued or in the dispatcher's hand |
| `TimerProtocol.DeliveriesAreExact` | backends/event.c:200-227 | when uw_io_ready's scan ends, in any run, the delivery was exact in the sense of `IoDispatch.IoReadyDelivers`, whatever the host did meanwhile |
| `TimerProtocol.StoppedTooLate` | host.go:407-426 | a run in which a timer is started, expires, is queued and is stopped within one callback, leaving a stale event in the queue |
| `EventBackend.EventBase.StopTimer` | backends/event.c:44-49 | stops the host timer and clears the id |
| `EventBackend.EventBase.StartTimer` | backends/event.c:51-60 | replaces the timer; fails exactly if the host grants none |
| `EventBackend.EventBase.Del` | backends/event.c:70-75 | deactivates and stops the timer |
| `EventBackend.EventBase.Unlink` | backends/event.c:36-42 | walking the next links removes the node from the list and keeps the order of the others |
| `EventBackend.EventBase.Release` | backends/event.c:81-84 | a released node leaves the live ones, and nothing linked refers to it |
| `EventBackend.EventBase.Free` | backends/event.c:77-85 | unlinks and releases, or defers the release while the callback runs |
| `EventBackend.EventBase.Add` | backends/event.c:87-91 | activates and starts the timer |
| `EventBackend.EventBase.AddTimer` | backends/event.c:93-103 | turns the event into a pure timer and starts it |
| `EventBackend.EventBase.NewEvent` | backends/event.c:150-165 | links a fresh node at the head, or changes nothing if calloc fails |
| `EventBackend.EventBase.FindReady` | backends/event.c:211-216 | the first node of the list that should fire; the walk reads live nodes only |
| `EventBackend.EventBase.FindTimer` | backends/event.c:230-233 | the node armed with the timer, if any; the walk reads live nodes only |
| `EventBackend.EventBase.FinishCallback` | backends/event.c:222-225 | after the callback, releases the node if the callback freed it |
| `EventBackend.EventBase.Fire` | backends/event.c:217-225 | one turn of the loop, with any callback body |
| `EventBackend.EventBase.IoReady` | backends/event.c:200-227 | the delivery loop over linked nodes is the specified delivery, terminates, and reads no released node |
| `EventBackend.IoReadyMemory` | backends/event.c:200-227 | a delivery with any callbacks leaves the memory invariant as the next export needs it |
| `EventBackend.EventBase.TimerFired` | backends/event.c:229-243 | the timer delivery over linked nodes is the specified one and reads no released node |
| `SocketTable.NeverOverLimit` | sockets.go:120-137 | the guest's veneer never meets the host's limit |
| `SocketTable.CloseKeeps` | backends/sockets.c:232-239 | closing any descriptor keeps slots and host sockets in bijection |
| `SocketTable.SocketKeeps` | backends/sockets.c:113-137 | opening, with every failure, keeps the bijection while socket ids have not wrapped |
| `SocketTable.BijectionSurvivesExactly` | sockets.go:138-141 | an open keeps the bijection if and only if the 32-bit socket id has not wrapped to a negative |
| `SocketTable.WrapBreaksBijection` | sockets.go:138-141 | a run of 2^31 - 1 opens and closes reaches a valid state whose next open breaks the bijection |
| `SocketTable.RunKeeps` | backends/sockets.c:113-239 | over any run of opens, closes and shutdown whose opens the remaining socket ids cover, slots and host sockets are in bijection, and after shutdown no host socket is left |
| `SocketTable.NoHostSocketsNoSlots` | zygote.go:76-88 | in any run that has not shut down or used up the ids, the check of the template's host sockets implies that the cloned slot table is empty |
| `SocketTable.ShutdownHidesSlots` | host.go:145-151 | after a shutdown the check passes, and the slot table is empty if and only if the host held no socket just before |
| `SocketTable.CheckPassesAfterShutdown` | zygote.go:79-81 | a run in which the check passes while a slot is in use |
| `SocketTable.RoutesExactly` | backends/guest.c:281-285 | io_ready routes a socket id to the slot that holds it, and to none if no slot does |
| `SocketTable.StaleEventsGoNowhere` | backends/guest.c:281-285 | an event for a closed socket never reaches a socket that reuses its descriptor |
| `SocketTable.Veneer.Lookup` | backends/sockets.c:31-34 | finds exactly the descriptors in use |
| `SocketTable.Veneer.Route` | backends/sockets.c:38-43 | the loop is the routing function |
| `SocketTable.Veneer.OpenSocket` | backends/sockets.c:113-137 | the loop over the slots is the specified open, result and new state |
| `SocketTable.Veneer.CloseFd` | backends/sockets.c:232-239 | the specified close |
| `Streams.PushKeeps` | sockets.go:463-468 | a push keeps the stream law |
| `Streams.TakeKeeps` | sockets.go:291-316 | a receive of any capacity keeps the stream law |
| `Streams.NothingIsLost` | sockets.go:286-327 | over any calls: TCP bytes pushed are the bytes received followed by those queued; the i-th UDP receive is the i-th datagram cut to the buffer, with its own source |
| `Streams.HostSocket.Push` | sockets.go:463-468 | appends unless closed |
| `Streams.HostSocket.Recv` | sockets.go:286-316 | the start of the oldest packet up to the capacity with its source, what stays queued, and the pending error |
| `Wakeups.StepKeeps` | sockets.go:286-327 | every step with a writable buffer keeps queue order, stream law and wakefulness |
| `Wakeups.RunKeeps` | sockets.go:463-470 | the same over any interleaving |
| `Wakeups.NoLostWakeup` | host.go:111-125 | while the instance is up, a socket with data has a READ under way or not yet acted on; events arrive in order and none is missing |
| `Wakeups.ReceiveLosesWakeupExactly` | sockets.go:315-325 | a receive leaves data without a wakeup if and only if the copy faults, data is left and no other READ is under way |
| `Wakeups.FaultCanLoseWakeup` | sockets.go:317-322 | a run in which that happens |
| `Egress.EgressAllowed` | sockets.go:74-91 | the scan decides the egress policy |
| `Egress.PolicyV4` | module.go:85-116 | for IPv4 the policy is exactly: port 53 and not on the guest's do-not-query list |
| `Egress.PolicyV6` | module.go:85-116 | for other IPv6 exactly: port 53, inside 2000::/3 and not on that list |
| `Egress.PolicyMapped` | sockets.go:78-78 | an IPv4-mapped address is judged as the IPv4 address inside |
| `Egress.AllowedIsQueryable` | sockets.go:30-91 | no allowed address, unmapped, is on the do-not-query list |
| `Egress.RunKeeps` | sockets.go:178-284 | every step of the socket calls keeps all destinations, dials and peers allowed |
| `Egress.NothingEscapes` | sockets.go:178-284 | for any run of socket calls with any arguments, everything that leaves goes to port 53 of an address off the list |
| `Batch.ResultTable.EnsureCtx` | backends/guest.c:117-135 | the context is made once: the first attempt decides both context and error, and later calls change neither |
| `Batch.ResultTable.ResolveStart` | backends/guest.c:253-278 | the first free slot for this query, or a negative errno saying why and no change to any slot |
| `Batch.ResultTable.Callback` | backends/guest.c:164-189 | fills the slot of a query that is waited for, and no other |
| `Batch.ResultTable.ResultGet` | backends/guest.c:291-308 | ready with the reply, pending, or an errno, exactly by the slot |
| `Batch.ResultTable.Cancel` | backends/guest.c:311-320 | frees exactly that slot |
| `Batch.ReadReply` | runtime.go:636-665 | bogus, failed, NXDOMAIN and good replies: the outcome of a query, with the records that the answer parser reads |
| `Batch.RidsAreDistinct` | runtime.go:433-467 | the result ids of started queries are pairwise distinct |
| `Batch.PendingChanges` | runtime.go:482-498 | settling a query in flight lowers the number in flight by one, starting one raises it |
| `Batch.Instance.Start` | runtime.go:443-467 | after starting, every query is rejected or in flight in a slot of its own, pending counts those in flight, and a batch that fits the free slots has none turned away for room |
| `Batch.Instance.Poll` | runtime.go:482-498 | a pass settles exactly the queries in flight whose reply is there, each with its own outcome, touches no other, and keeps pending exact; it stops only where reading a result fails |
| `Batch.FullMeansMany` | runtime.go:409-411 | the slots are all taken only if those from before and the queries started so far fill them |
| `Batch.Instance.FailUnsettled` | runtime.go:416-423 | the error goes to exactly the queries that have no outcome |
| `Batch.Instance.CancelAll` | runtime.go:434-441 | on an open instance exactly the listed slots become free |
| `Batch.Instance.Loop` | runtime.go:481-516 | the waiting loop ends with every query concluded; if it gives up, the error names its cause and the instance is closed, except that a shutdown from outside leaves it open; it does not give up if nothing fails and every query in flight is called back |
| `Batch.Instance.ResolveAll` | runtime.go:412-517 | for any guest honouring the ABI: exactly one of result and error per query, each explained by what happened to that query or the error of a batch given up for a named cause; no giving up if nothing fails and the started queries are called back; while guest calls work the slots in use are those from before; and a batch that fits and is not given up yields the parsed answer of libunbound to every sound query |
| `Ports.PopcountCounts` | patches/0003-shared-ports-bitmap.patch:52-55 | the mask trick counts the set bits of every byte |
| `Ports.PopcountFits` | patches/0003-shared-ports-bitmap.patch:52-55 | no difference or sum of the mask trick leaves eight bits |
| `Ports.IndexBijection` | patches/0003-shared-ports-bitmap.patch:11-13 | indices below the number of free ports and free ports determine each other |
| `Ports.SharedPorts.constructor` | patches/0003-shared-ports-bitmap.patch:75-93 | the free ports are the listed ones in range, and the count is right if and only if no port is listed twice or out of range |
| `Ports.SharedPorts.TakeAvail` | patches/0003-shared-ports-bitmap.patch:41-72 | returns and clears the num-th smallest free port if there is one, else -1 and no change |
| `Ports.SharedPorts.Fetch` | patches/0003-shared-ports-bitmap.patch:106-119 | hands out a port nobody holds, keeps free plus in use equal to the total, and succeeds exactly for indices below the free count |
| `Ports.SharedPorts.PutBack` | patches/0003-shared-ports-bitmap.patch:126-128 | returning a port keeps the count if and only if the port was not free |
| `Ports.SharedPorts.Return` | patches/0003-shared-ports-bitmap.patch:126-128 | returning a held port makes it free again and keeps the count |
| `Ports.ArrayFetch` | patches/0003-shared-ports-bitmap.patch:108-110 | taking a port from the old array, which moves its last entry into the gap, and from the bitmap keeps both holding the same ports |
| `Ports.ArrayReturn` | patches/0003-shared-ports-bitmap.patch:125-125 | so does giving one back |
| `Answer.NameEqualIsEquivalence` | answer.go:130-132 | name equality is reflexive, symmetric and transitive, for any case folding |
| `Answer.CnameTargetIsFirst` | answer.go:121-128 | the target is that of the first CNAME record owned by the name, and there is none exactly if no such record is there |
| `Answer.WalkReachesTheEnd` | answer.go:41-53 | if following first-match CNAMEs ever reaches a name without one, the walk bounded by the number of records ends there |
| `Answer.LongChainNeverEnds` | answer.go:41-43 | a chain longer than the answer section uses a record twice and never ends |
| `Answer.Walk` | answer.go:44-53 | the loop ends at the end of the chain whenever there is one |
| `Answer.GatherLists` | answer.go:55-77 | the lists are exactly the wanted records in order, and gathering fails exactly if a wanted CAA is malformed |
| `Answer.Collect` | answer.go:55-77 | the loop gathers exactly the records of the asked type at the owner, in order |
| `Answer.ReadIsComplete` | answer.go:41-77 | a parsed packet fails exactly if a wanted CAA is malformed, and otherwise yields all records of the asked type at the end of the chain |
| `Answer.ParseAnswer` | answer.go:17-78 | empty, malformed, truncated and good packets; a good one yields the records of the asked type at the end of the chain |
| `Answer.CaaRoundTrip` | answer.go:134-140 | parsing an encoded CAA record gives it back |
| `Answer.ParsesExactlyCaa` | answer.go:134-140 | data parses to a record if and only if it is that record's encoding and the tag is not empty |
| `RandomMax.LimitIsEven` | backends/random.c:32-33 | the limit is a multiple of the bound and more than half of all draws lie below it |
| `RandomMax.ExactlyUniform` | backends/random.c:29-39 | for every bound, each residue has exactly limit / bound accepted draws among all 2^31 |
| `RandomMax.UbRandomMax` | backends/random.c:29-39 | the result is the residue of the first accepted draw; no result only if all draws are rejected |
| `HashBuffer.DoubledReaches` | backends/secalgo.c:60-65 | from any capacity that occurs, doubling reaches a size if and only if it is at most 2^31 |
| `HashBuffer.NextKeeps` | backends/secalgo.c:56-75 | an update appends the chunk or changes nothing, and length stays within capacity |
| `HashBuffer.RunHoldsWhatWasTaken` | backends/secalgo.c:56-75 | after any updates the buffer is the concatenation of the chunks that succeeded |
| `HashBuffer.DoubleUntil` | backends/secalgo.c:60-65 | the loop terminates without leaving 32 bits and is the doubling function |
| `HashBuffer.HashUpdate` | backends/secalgo.c:56-75 | succeeds exactly if it fits or can grow to at most 2^31 bytes; a failure changes nothing |
| `HashBuffer.HashFinal` | backends/secalgo.c:77-88 | a digest is of exactly the buffered bytes, with its exact conditions and the reported length |

## Left out

- wazero, mmap, the file system and the network are steps or parameters with any outcome; their own code is not modelled.
- Locks are modelled as held or not, with Go's writer preference; waits on channels, timers and sockets are not locks and are outside `LockOrder`.
- The 64-bit counters (timer ids, the event generation) are unbounded numbers; only the 32-bit socket id is modelled with its wrap-around.
- The parser takes Go's int as 64 bits wide; 32-bit hosts are not modelled.
- start_timer's conversion of a timeval to milliseconds, and how long a timer runs: timers expire at any time.
- libunbound is any caller that uses an event until it frees it, and answers each query at most once and never after its cancellation.
- When a result copy runs out of memory: that is part of what `answer` may say.
- The start functions and the reseeding of a clone come after the memory equality that `Zygote` proves.
- Replay hooks, recorded traffic and the tests are left out.
- crypto.go, signature checks and NSEC3 hashing are thin wrappers; a digest is any function.
- dnsmessage's wire parsing is a given; parseEDE is best effort and decides nothing.
- Batch.Instance.ResolveAll: does not model error texts, and of several causes the script decides which comes first; a caller's own context ending needs no cause.
- SocketTable.NoHostSocketsNoSlots: for an instance that is up, because `ShutdownHidesSlots` shows that the check says nothing after a shutdown.
- SocketTable.RunKeeps: states the bijection up to the wrap-around of socket ids, because `WrapBreaksBijection` shows that the code does not keep it after.
- shared_ports_setup_if's failed allocation, and the upstream code around the hunks of the port patch, are left out.
- Peer addresses, bound ports and getsockname in the guest's socket slots are left out.
- End of stream on TCP is not reported to the guest by the code, so nothing is claimed about it.
- Two dials on one socket are two pending dials in `Egress`; closing between the check and the write of sockSendTo is the write on a closed connection.
- A guest trap inside an event callback ends the instance; `TimerProtocol` and `EventBackend` cover callbacks that return.
- wasi.go, which serves the guest's clocks and random bytes and copies its standard output and error to the log.
- errno.go, which maps Go network errors to WASI errno numbers; the models name errors and not their numbers.
- backends/compat.c, which gives the guest a numeric-only getaddrinfo, getnameinfo and fixed service and protocol tables.
- Logging.
