# The request lifecycle engine of iuring, in Dafny

iuring is a C++ layer over liburing. A program starts requests (accept, connect, receive, send,
close), the kernel works on them in any order, and `poll_completion_queues` calls the user back, one
completion at a time. This project models the machinery between the two and proves what it keeps:
the pool of work items whose ids are handed out again and again, the ring of receive buffers that
are used again and again, the bounded submission queue, the dispatch of completions, the packet
serialiser and the coalescing of hostname lookups.

## How the model is built

- `WorkPool.dfy`: the slot vector and the free-id stack, as values with their invariant and as the
  classes `WorkItem` and `WorkPool`. An object is known by the order of its allocation, a slot by its
  index; the kernel is only ever told the index.
- `BufferRing.dfy`: the 1024-entry descriptor ring with its 16-bit counters, the mapping as bytes,
  and the class `BufferPool`.
- `Engine.dfy`: the state machine. One event is one thing that happens between two points where
  somebody else may act: a user call, a kernel completion, and the four stages of a poll (enter the
  callback, leave it, free or re-submit, advance). Users may call between polls and from inside a
  callback; the kernel may post at any moment. Assertions and `abort()` are the two ways to halt. The
  header of a datagram is read from the bytes in its buffer, as the source reads it.
- `Routing.dfy`, `Visible.dfy`, `Buffers.dfy`, `Histories.dfy`, `Halts.dfy`, `Reentrancy.dfy`,
  `Accounts.dfy`, `Multishot.dfy`, `Draining.dfy`: what every run keeps, and exactly when it does not.
- `Tickets.dfy`, `Simulation.dfy`, `Divergence.dfy`: an abstract machine without ids, slots or
  buffers, the proof that the engine and it have the same runs and make the same calls, and how a
  stale free tells them apart.
- `StaleExample.dfy`: two runs that show why datagram receives need a condition.
- `Receives.dfy`: what becomes of a receive, told from the bytes of its buffer one by one. The ticket
  machine reads datagrams and counts flushed entries in its own way, so that the simulation compares
  two accounts of these.
- `Polls.dfy`: a poll as a list of events with whatever everybody else does in between, and what a whole
  poll comes to.
- `IOUring.dfy`: the class, method by method, proved against the steps of the machine.
- `SendPacket.dfy`, `Hostnames.dfy`: the serialiser and the lookup coalescer, each with a functional
  specification, theorems about sequences of operations, and a class proved against it.

A run is a list of events, `Legal` when each is allowed where it happens. What is allowed is the
usage contract (a send item is submitted once; callbacks do not poll) and the kernel's: a one-shot
operation ends with its one completion; only a datagram receive may announce more; a receive that
succeeds carries the oldest exposed buffer, filled with as many bytes as its result says, at most
4096; no other completion carries a buffer. Flush results and callback answers are parts of the
events, so a theorem about all runs is about all of them.

`Disciplined` runs are those without a stale free: a free of an id that is still queued, armed or
completed elsewhere. Part of that is known to the kernel alone, but the program can tell all the
same: a free is stale exactly when more operations have been prepared for the id than completions
without the flag for more have been dispatched (`Visible.StaleIsTooEarly`), and always when the
completion at hand has that flag (`Visible.MoreMeansTooEarly`). `Visible.RoutingOverRuns` proves that
completions are routed over a whole run if and only if the program frees no id too early. One-shot
requests meet this by themselves (`Routing.OnlyDatagramsGoStale`), and programs whose datagram
callbacks answer RE_SUBMIT meet it altogether (`Accounts.ResubmittingIsDisciplined`).

## What the proofs found

- A datagram receive is multishot. The handler only logs the flag that announces more completions
  (src/IOUring.cpp:693-698), so a callback that answers NONE frees an id the kernel still uses. The
  next request gets that id, and a late datagram runs its callback.
  `StaleExample.StaleCompletionReachesNewOccupant` is such a run.
- If nobody has taken the id by then, the late datagram finds its slot empty, and the early return
  (src/IOUring.cpp:675-682) loses its buffer for good: `StaleExample.LateDatagramLosesBuffer`.
  `Buffers.PartitionOverRuns` has the exact condition under which all buffers stay accounted for: no
  completion with a buffer finds its slot empty, no callback but a receive's returns from one, and no
  receive's returns without. After a stale free a running callback still has its completion, its slot
  and its item to itself; the bytes it is shown are safe as long as that condition has been met
  (`Reentrancy.CallbacksAreSafe`).
- A callback that answers RE_SUBMIT to such a completion arms the operation once more each time, and
  nothing ever takes that back (`Multishot.RearmingPilesUp`).
- EAI_INTR, the one error of a receive that re-submits it (src/IOUring.cpp:645-646), is a code of
  `getaddrinfo`. As a result of the kernel its value, -104, is -ECONNRESET: a stream that is reset is
  received from again.
- `resolve_hostname` adds a handler to an existing entry (src/IOUring.cpp:930-938) but never to the
  entry it makes (src/IOUring.cpp:942-956): the first handler for a name is never called.
  `Hostnames.FirstHandlerNotCalled`, `Hostnames.HandlerKeptIff` and `Hostnames.AllHandlersCalledIff`
  say when that shows.
- `SendPacket` leaves its array uninitialised, and `reset` clears the used bytes only, so on a fresh
  packet it may leave old bytes that `clean_proper` would not (`SendPackets.ResetLeavesGarbage`,
  `SendPackets.ResetFromFreshIsCleanIff`).
- A poll flushes only when it re-submits. An entry that a failed or partial flush leaves queued stays
  there until the next submission or re-submission (`Draining.QueueWaits`), even when everything else
  has drained: `Draining.StuckEntry` is a run that polls as often as one likes and never sends its one
  request, and `Draining.DryLeavesOnly` says exactly when something is left.
- The look-ups assert `id <= size` (src/WorkPool.cpp:12, src/WorkPool.cpp:27); what they need, and
  what always holds, is `id < size`.

## Model

| member | source | states |
|---|---|---|
| WorkPools.AllocOk | src/WorkPool.cpp:40-67 | allocation keeps the pool invariant (the free stack lists each null slot once, a non-null slot holds an in-use item that knows its id), hands out an id no live slot has, to a new object, and touches no other slot |
| WorkPools.FreeOk | src/WorkPool.cpp:24-37 | freeing a live slot fires no assertion, keeps the invariant, clears this slot only and marks this item only |
| WorkPools.FreedIdIsNext | src/WorkPool.cpp:36-65 | ids are recycled last-in first-out: the next allocation takes the id just freed, for a different object, and the vector does not grow |
| WorkPools.LiveCounts | src/WorkPool.hpp:88-93 | slots minus free ids is the number of items in use |
| WorkPools.WorkPool.GetWorkItem | src/WorkPool.cpp:8-22 | finds the object in the slot, in use and with that id, or null |
| WorkPools.WorkPool.FreeWorkItem | src/WorkPool.cpp:24-37 | the class does what the specification of a free says, assertions included |
| WorkPools.WorkPool.InternalAlloc | src/WorkPool.cpp:40-67 | the class does what the specification of an allocation says, with a fresh object |
| BufferRing.RecycleAppends | src/IOUring.cpp:184-189 | a recycle appends its buffer to the FIFO the kernel sees, whatever the overwritten descriptor held, across the 16-bit wrap |
| BufferRing.CountersWrap | src/IOUring.cpp:184-189 | head and tail count modulo 65536 |
| BufferRing.SetupWindow | src/IOUring.cpp:169-174 | at start-up descriptor i holds buffer i, for all 1024, and the first 512 are exposed in order |
| BufferRing.RingRefinesFifo | src/IOUring.cpp:136-189 | over any history that gives back no more than it took, the masked ring with wrapping counters shows exactly what an unbounded queue holds |
| BufferRing.BufferGeometry | src/IOUring.hpp:154-164 | all 1024 buffers of 4096 bytes lie inside the mapping, behind all descriptors of 16 bytes, pairwise disjoint, the last one ending the mapping |
| BufferRing.FillThenView | src/IOUring.cpp:138-157 | what the kernel writes into a buffer is read back whole, and no byte of any other buffer changes |
| BufferRing.BufferPool.constructor | src/IOUring.cpp:169-174 | the set-up loop writes every descriptor and exposes the first 512 |
| BufferRing.BufferPool.RecycleBuffer | src/IOUring.cpp:184-189 | one descriptor written at the tail and published: the FIFO grows by this buffer |
| Routing.StepKeepsInv | src/IOUring.cpp:670-742 | every step but a stale free keeps: pool invariant, each pending id names a live submitted item, a one-shot id is pending once, entries and completions fit the item they name, type and callback agree, every live item is accounted for, no assertion fires |
| Routing.StaleFreeBreaksRouting | src/IOUring.cpp:693-720 | a stale free leaves a pending id that names an empty slot |
| Routing.OnlyDatagramsGoStale | src/IOUring.cpp:295-331 | in a good state only the free of a datagram receive can be stale |
| Routing.RoutedIffDisciplined | src/IOUring.cpp:670-742 | over every run, completions are routed in every state if and only if no free is stale |
| Visible.RoutingOverRuns | src/IOUring.cpp:670-742 | over every run, completions are routed in every state if and only if the program never frees an id for which it has prepared more operations than it has seen end |
| Visible.StaleIsTooEarly | src/IOUring.cpp:693-720 | in every state of every legal run a free is stale exactly when the entries prepared for the id outnumber the completions without F_MORE dispatched for it |
| Visible.MoreMeansTooEarly | src/IOUring.cpp:693-720 | a free on a completion with F_MORE is always stale |
| Visible.RunKeepsVisible | src/IOUring.cpp:244-372 | over every legal run the entries prepared for an id are those still queued or armed plus its final completions, and every completion with more to come is followed by an armed entry or a final completion |
| Routing.SubmitEffect | src/IOUring.cpp:244-372 | a submission queues exactly one entry, carrying the item's own id and the operation for its type, behind all earlier ones, or halts and queues nothing |
| Buffers.PartitionOverRuns | src/IOUring.cpp:652-682 | over every legal run each buffer has exactly one owner in every state if and only if no completion with a buffer finds its slot empty and no callback returns from a buffer unless it is a receive, and a receive always has one |
| Buffers.StepPartition | src/IOUring.cpp:652-682 | the same for one step: those two events break the partition, no other does |
| Buffers.OwnersOfPartition | src/IOUring.cpp:169-189 | buffers 0 to 511 have exactly one owner each (window, unpolled completion or running callback), the reserved ones none; window and outstanding buffers are 512 together |
| Buffers.DisciplinedIsWellPlaced | src/IOUring.cpp:670-742 | runs without stale frees have none of the two events |
| Buffers.PartitionKept | src/IOUring.cpp:652-666 | from any good state, every run without stale frees keeps each buffer with exactly one owner |
| Reentrancy.CallbackUndisturbed | src/IOUring.cpp:670-742 | from any state a run can reach, stale frees or not, and up to and including a halt: whatever a callback starts, acquires or submits and the kernel posts meanwhile, its completion, slot and item stay as they were |
| Reentrancy.BytesUndisturbed | src/IOUring.cpp:652-666 | where every buffer is accounted for it stays so while a callback runs, and all bytes of the buffer at hand stay as they were |
| Reentrancy.CallbacksAreSafe | src/IOUring.cpp:652-742 | over every run from start-up that enters a callback: completion, slot and item are undisturbed, and the bytes too unless a completion with a buffer has missed its item before |
| Simulation.StepSim | src/IOUring.cpp:670-787 | between states that agree an event is possible for the engine if and only if it is for the ticket machine, and it keeps the two alike |
| Simulation.RunSim | src/IOUring.cpp:670-787 | from any pair of states that agree the two machines have the same runs without stale frees, and stay alike |
| Simulation.RecyclingIsInvisible | src/IOUring.cpp:670-742 | an interleaving without stale frees can happen to the engine if and only if it can happen to a machine whose tickets are never reused and whose completions carry their bytes, and then both make the same calls: same requests, same order, same results, same bytes, same halts |
| Divergence.StaleFreeShows | src/IOUring.cpp:675-720 | after any run whose first stale free is its last event, of an operation the kernel still holds and with no other completion waiting, three more events that both machines allow, any datagram the handler would deliver and its poll, make them differ in the calls they have made |
| Histories.SlotsEqualPeak | src/WorkPool.cpp:45-66 | the slot vector's length is the largest number of items live at one moment so far; it never shrinks, and every id ever issued is in range |
| Histories.SubmissionsConserved | src/IOUring.cpp:208-241 | entries taken by the kernel followed by those queued are all entries ever prepared, in order, and the queue never exceeds its capacity |
| Halts.HaltsExactly | src/IOUring.cpp:225-787 | over every legal run, stale frees or not, an event halts the engine if and only if: the peek fails; a submission or re-submission finds the queue full and its retry takes nothing; a send does not fit its socket; a poll finds a receive with an error that is neither -ENOBUFS nor EAI_INTR, or a datagram without buffer or with a sender of unknown length; or a completion reaches a send item never submitted. Ids out of range, frees of free items and callbacks of the wrong type do not occur |
| Halts.DisciplinedPollHalts | src/IOUring.cpp:532-663 | without stale frees a poll halts exactly on such an error of a receive or on a whole datagram whose sender has a length other than 0, 16 and 28 |
| Histories.DispatchedOnceInOrder | src/IOUring.cpp:751-787 | dispatched completions followed by those not dispatched are all completions ever posted |
| Histories.OrderKept | src/IOUring.cpp:751-787 | from any state in order, every run stays in order, stale frees or not |
| Accounts.RequestsConserved | src/IOUring.cpp:685-691 | the live items are exactly the pending requests, the acquired and unsubmitted send items and those left behind by -ENOBUFS, disjoint but for datagram receives; each pending one-shot request is pending once |
| Accounts.PendingLedger | src/IOUring.cpp:670-742 | the exact change of every id's reference count by every step |
| Accounts.NeverStuck | src/IOUring.cpp:751-787 | over every run, stale frees or not, short of a halt: the poll can take its next stage, users may start requests whenever it is their turn, and the kernel can complete any operation it holds, a receive with data of at most 4096 bytes exactly while a buffer is exposed, which, where every buffer is accounted for, is while fewer than 512 are out |
| Accounts.AcceptsStayArmed | src/IOUring.cpp:703-707 | until -ENOBUFS or a halt an accept item, failed accepts included, has exactly one request outstanding in every state |
| Accounts.ReceivesStayArmed | src/IOUring.cpp:714-726 | a receive whose callback never answers NONE is never freed; a stream receive has exactly one request outstanding, a datagram receive at least one, and its id keeps naming it |
| Accounts.ResubmittingIsDisciplined | src/IOUring.cpp:714-726 | if every datagram callback answers RE_SUBMIT no free is stale |
| Multishot.RearmingPilesUp | src/IOUring.cpp:693-726 | over every run without stale frees a datagram receive that never answers NONE pends once plus once for each completion posted for it with more to come, until -ENOBUFS or a halt |
| Accounts.SubscribedKept | src/IOUring.cpp:714-726 | from any good state, a receive that never answers NONE is not freed |
| Accounts.CallsKept | src/WorkItem.hpp:108-146 | from any good state, every run without stale frees keeps the counts and types of calls and fires no modelled assertion |
| Accounts.CallbacksCoherent | src/WorkItem.hpp:108-146 | over every run without stale frees no assertion on the engine's own state fires (null slot, free item, double free, callback alternative, unknown type); every call goes through the alternative that fits the item, with the function it was given; connect, send and close callbacks run at most once, connect and send only without an error, and a freed close item has been called once |
| Draining.WorkLedger | src/IOUring.cpp:670-787 | for every run from any state whatever, any flush results and answers: the steps taken and the work left are at most the work there was, plus 7 for each request started, 8 for each send item acquired, 6 for each re-submission, 5 for each completion with more to come and 1 for each empty poll |
| Draining.ResubmissionLedger | src/IOUring.cpp:450-742 | for every run from any state whatever: each re-submission goes back to an interruption, a datagram its header sends back, a failed accept, or the return of an accept callback or of a receive callback that answers RE_SUBMIT |
| Draining.DrainsAreBounded | src/IOUring.cpp:751-787 | with nothing new started and no empty polls a run ends, whatever kinds of requests there are, stale frees or not: no more steps than the work there was, six more for each interruption (or reset: same number), datagram sent back, failed accept or callback that wants more, five more for each completion with more to come, and one more to halt |
| Draining.NoneDrainsAreBounded | src/IOUring.cpp:714-726 | without accepts, and with callbacks that answer NONE, datagram receives included: only interruptions, datagrams sent back and completions with more to come count |
| Draining.StreamDrainsAreBounded | src/IOUring.cpp:714-726 | without datagram receives as well: only interruptions count |
| Draining.DrainsGoOn | src/IOUring.cpp:751-787 | in any state a run can reach, until the engine is dry a drain can take a next step, and the kernel can complete whatever it holds |
| Draining.DrainsEnd | src/IOUring.cpp:751-787 | every run can be carried on, with nothing new started and nothing more interrupted, until the kernel holds nothing and nothing awaits a poll, or a poll halts the engine; a drain by a drain |
| Draining.DryLeavesOnly | src/IOUring.cpp:208-222 | when the engine is dry the pending items are exactly those with an entry still queued, none if and only if the queue is empty; without datagram receives that is so if and only if the live items are the acquired send items and those left behind by -ENOBUFS |
| Draining.QueueWaits | src/IOUring.cpp:208-222 | a run without submissions and re-submissions leaves the submission queue as it is |
| Draining.StuckEntry | src/IOUring.cpp:208-222 | one connect request whose flush fails, then any number of polls: the engine is dry and the request still queued |
| StaleExample.StaleCompletionReachesNewOccupant | src/IOUring.cpp:693-720 | for any datagram the handler would deliver, a nine-event run from start-up in which a connect request's callback runs for it while the connection is still pending |
| StaleExample.LateDatagramLosesBuffer | src/IOUring.cpp:675-682 | for any such datagram, an eight-event run from start-up with every buffer accounted for up to its last event, which loses one |
| StaleExample.RealDatagramsDeliver | src/IOUring.cpp:556-612 | what the kernel writes for any payload from an IPv4 sender is such a datagram, and its payload is what the callback is shown |
| Polls.ExecIsRun | src/IOUring.cpp:751-787 | what the class executes for a list of events is a legal run: all of them, or all up to a halt |
| Polls.ExecExtendsRun | src/IOUring.cpp:751-787 | whatever the class executes from a state some run reaches, polls included, ends in a state a longer run reaches |
| Polls.PollComesTo | src/IOUring.cpp:670-787 | a poll that finds a completion and does not halt dispatches and removes just this one, with what arrived meanwhile behind the rest. No item or -105: nothing else happens. Otherwise the user is called once, with the bytes behind the header of a datagram or all bytes of a stream, if a call is due; an accept, a receive whose callback was not due, and one that answered RE_SUBMIT keep item and slot and have one more entry prepared; everything else is out of use, its slot empty and no entry prepared |
| Polls.PollEventParts | src/IOUring.cpp:751-787 | in such a poll the user does what his script says, in order; the kernel what script, posts and last posts say; the program begins, leaves the callback with the answer given, settles with the flushes given, and advances |
| Polls.QuietPollRuns | src/IOUring.cpp:751-787 | in any state a run can reach a poll that nobody interferes with can be made |
| Receives.DatagramReceived | src/IOUring.cpp:547-629 | byte by byte: shorter than 144, a name length above 128, or bit 5 of the flags set: no callback, the buffer given back, to be submitted again; else a name length of 0, 16 or 28: the callback is shown the bytes from the 144th on; else the program ends |
| Receives.StreamReceived | src/IOUring.cpp:532-545 | the callback is shown all bytes received |
| Receives.ReceiveFailed | src/IOUring.cpp:618-651 | -104 is submitted again, any other error ends the program |
| Receives.OtherSendersDeliver | src/IOUring.cpp:583-598 | whole datagrams from IPv6 senders and from nobody are delivered with their payload |
| IOUrings.IOUring.SubmitAllRequests | src/IOUring.cpp:208-222 | a failed flush moves nothing; one that takes n entries moves the first n from the queue to the end of what the kernel holds, or all if there are fewer |
| IOUrings.IOUring.GetSubmissionEntry | src/IOUring.cpp:225-241 | one flush when full, then give up |
| IOUrings.IOUring.SubmitWorkItem | src/IOUring.cpp:244-372 | the class does what the specification of a submission says |
| IOUrings.IOUring.PrepareAndSubmit | src/WorkItem.cpp:29-80 | callback and type are set together, then the item enters the ring |
| IOUrings.IOUring.SubmitNew | src/WorkPool.cpp:80-128 | allocate, then submit: the four request kinds that start at once |
| IOUrings.IOUring.AcquireSendItem | src/IOUring.cpp:815-822 | a send item is allocated and nothing is submitted |
| IOUrings.IOUring.EnterCallback | src/WorkItem.hpp:108-146 | the stored alternative is checked before the call |
| IOUrings.IOUring.BeginReceive | src/IOUring.cpp:532-663 | errors, missing buffers and malformed datagrams are told apart before any user code, from the bytes in the buffer |
| IOUrings.IOUring.CallUnlessFailed | src/IOUring.cpp:450-529 | a failed accept, connect or send reaches no user code |
| IOUrings.IOUring.BeginDispatch | src/IOUring.cpp:670-742 | look-up, early return on -ENOBUFS and the switch, up to the user code |
| IOUrings.IOUring.EndCallback | src/IOUring.cpp:665-666 | a receive gives its buffer back and obeys the answer |
| IOUrings.IOUring.SettleItem | src/IOUring.cpp:703-737 | free the id or submit the item again |
| IOUrings.IOUring.PollCompletionQueues | src/IOUring.cpp:751-787 | a failed peek halts the engine and an empty queue leaves it as it is; any other poll that does not halt, user code and kernel completions at every stage included, comes to what the answer and the kind of item ask for, and everybody has done his part in order |
| SendPackets.NetworkByteOrder | include/iuring/SendPacket.hpp:20-30 | 16- and 32-bit fields are stored most significant byte first on hosts of either endianness |
| SendPackets.RoundTrip | include/iuring/SendPacket.hpp:15-64 | decoding by the same field list gives the values that were appended |
| SendPackets.ResetIsCleanIffTailZero | include/iuring/SendPacket.hpp:66-76 | the cheap reset equals the full clear if and only if the unused bytes are zero |
| SendPackets.ResetAfterCleanIsClean | include/iuring/SendPacket.hpp:66-76 | from any state reached since a full clear the two are equal |
| SendPackets.ResetFromFreshIsCleanIff | include/iuring/SendPacket.hpp:94-95 | from an uninitialised packet they are equal if and only if the bytes no operation ever reached were zero from the start |
| SendPackets.ResetLeavesGarbage | include/iuring/SendPacket.hpp:66-95 | a fresh packet that is not zero, before and after any append: the cheap reset leaves what the full clear would not |
| SendPackets.SendPacket.AppendBytes | include/iuring/SendPacket.hpp:47-52 | the used bytes grow by the data, the others do not change, and the size stays below 4096 |
| SendPackets.SendPacket.AppendChecked | include/iuring/SendPacket.hpp:47-52 | with its assertion: an append succeeds exactly while the new size is below 4096, and otherwise changes nothing |
| SendPackets.FitsBelow | include/iuring/SendPacket.hpp:47-52 | the same for sequences of operations |
| SendPackets.SendPacket.AppendFields | include/iuring/SendPacket.hpp:15-64 | any appends the assertions allow add the concatenated encodings to the used bytes, which decode to the values appended |
| SendPackets.SendPacket.ResetPacket | include/iuring/SendPacket.hpp:66-70 | clears the used bytes in place |
| SendPackets.SendPacket.CleanProperly | include/iuring/SendPacket.hpp:72-76 | clears the whole array in place |
| Hostnames.ConvertAddresses | src/IOUring.cpp:843-862 | there is an increasing list of positions, of exactly the results of the families Inet and Inet6, and the addresses are those at these positions |
| Hostnames.RunKeepsCoalesced | src/IOUring.cpp:930-956 | over every run at most one entry per hostname, and no two entries wait for the same control block |
| Hostnames.CallsAsRegistered | src/IOUring.cpp:865-957 | over every run, told from the history alone: a notification calls, once each and in order, the handlers given for its name so far but for the first; nothing else is called |
| Hostnames.FailureIsTold | src/IOUring.cpp:886-892 | after any run, a waiting lookup that fails: each handler due is told of the failure, once and in order, and the entry goes on waiting |
| Hostnames.AddressesAreTold | src/IOUring.cpp:893-907 | after any run, a waiting lookup that succeeds: each handler due is told the addresses picked from the results, and no entry waits for the block any more |
| Hostnames.AnsweredForGood | src/IOUring.cpp:895-901 | after a successful lookup the entry never fires again |
| Hostnames.HandlerKeptIff | src/IOUring.cpp:930-956 | after any run, a request leaves an entry for its name whose handlers end in the new one if and only if the name was asked for before; otherwise the new entry has no handlers |
| Hostnames.HandlerCalledIff | src/IOUring.cpp:865-956 | whatever happens between a request and the notification of the lookup it waits for: the notification calls the handlers of earlier requests but the first, its own and those of later ones if and only if the name was asked for before, and otherwise those of later ones only |
| Hostnames.AllHandlersCalledIff | src/IOUring.cpp:930-956 | the calls made are those a caller would expect, where each notification calls every handler given for its name so far, if and only if no notification ever found a lookup waiting |
| Hostnames.FirstHandlerNotCalled | src/IOUring.cpp:942-956 | one request and its successful lookup: the handler is not called |
| Hostnames.RequestInfo.Move | src/IOUring.hpp:106-116 | a move hands the control block over and leaves none behind |
| Hostnames.HostnameResolver.Grow | src/IOUring.hpp:134 | when the vector grows all entries move and none changes |
| Hostnames.HostnameResolver.ResolveHostname | src/IOUring.cpp:910-957 | the class does what the specification of a request says |
| Hostnames.HostnameResolver.TriggerHostnameCallbacks | src/IOUring.cpp:865-908 | the two loops do what the specification of a notification says |

## Left out

- Divergence.StaleFreeShows: asks that no other completion waits and that the kernel has taken the other operation; what the polls of others, or a later flush, would do first is left open.
- Hostnames.CallsAsRegistered: handlers do not call `resolve_hostname` themselves.
- The kernel and liburing: only a relation that takes entries, posts completions and consumes buffers; completion-queue overflow, registration and set-up failures are not part of this model.
- Threads: each pool operation and each lookup notification is one atomic step; the recursive mutex is not modelled.
- Addresses are opaque. The assertion that a connect target has an IPv4 address (src/IOUring.cpp:280) and the one on the length of an accepted address are demands on callers and kernel.
- The sender's address in a datagram's header is checked for its length and not decoded. The words of the header are read as a little-endian host reads them.
- Control messages, DSCP and TTL, socket creation, feature probing and logging.
- The stack of reserved buffer ids is filled at start-up (src/IOUring.cpp:176-179) and never used.
- Direct calls of `IOUringInterface::submit` with an item that was never given a callback: they abort.
- The packet inside a work item is modelled apart from the engine; the reset after a send callback is one of its operations.
- Lifetime of the hostname a lookup points to, and of the control block that `free` releases.
- Constants from system headers: ENOBUFS is 105, EAI_INTR is -104, a `sockaddr_in` has 16, a `sockaddr_in6` 28 and a `sockaddr_storage` 128 bytes, a descriptor and the header of a received datagram 16 bytes each; MSG_TRUNC is 0x20.
- Builds without assertions: an assertion that fails stops the program here.
- Request linking: nothing in the sources ever asks for it.
