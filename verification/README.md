# Portals 4 engine: models and proofs

The transport-independent engine of the Portals 4 reference implementation (`src/ib`) is
built from a handful of small protocols and data structures. Each is modelled here in
Dafny together with the whole-run properties it is there for.

Two kinds of model are used. A protocol between threads or peers is a step machine:
a `State`, an `Action` per indivisible step, `Enabled` and `Apply`, and results about
every state of every run, for any number of threads. Code that works step by step on its
own data is a method or a class whose loops are proved against a specification.

- `TriggerSteps` (with `TrigList`): one counting event and any number of concurrent
  incrementers, posters and walkers. The counter is read in two halves, the increment
  looks at `list_size` without the lock, and all walkers share one cursor.
- `CascadeSpec`, `Cascade`: any number of counters whose triggered operations increment
  and set counters, their own included. The specification allows any order of release;
  the class runs the recursive walk of the source. That a counter
  settles is stated while its own `list_size` is the length of its list, whatever that of
  the others; all calls but PtlCTFree keep it so. What happens when it falls short is
  stated too.
- `CountedStack`: the lock-free free list, with the counter next to its head, torn reads
  of that pair and a different mapping of the slab in every process.
- `MrCache` (with `Arith`): the memory-registration cache, a search tree of page-aligned
  regions that merges neighbours on a miss.
- `EventRing`: the event queue whose producer may lap its consumer, and the flow control
  that disables portal table entries into reserved slots.
- `InitiatorSpec`, `Initiator`: the initiator state machine of a request, with its event
  mask, its descriptor references and the log of the events it generates.
- `Connect`: two peers whose connection requests may cross, as a step machine and in place.
- `Segments`, `Iovec`, `MemTransfer`: copies between scattered and linear memory, and
  between two scattered sides.
- `Unexpected`: priority, overflow and unexpected list of a portal table entry, with
  arrivals while an appending thread has dropped the lock.
- `ObjPool`: object pools, reference counts, indices and handles.
- `IntrusiveList`, `TicketLock`: the linked list on the heap and the ticket spin lock.

Where a property the source is meant to have fails, the failing case is stated and so is
the exact condition under which it holds:

- a zero-length registration at a page boundary: `MrCache.EmptyRegionCollides` with
  `MrCache.Cache.Lookup`;
- a portal table entry enabled while reserved slots are in use: `EventRing.Overrun` for every
  queue that is not armed, `EventRing.EventQueue.MakeEvent` for every queue that is;
- a reference taken by `to_obj` on an object released since its checks: `ObjPool.ToObjRace`
  with `ObjPool.TakeExact`, over whole runs `ObjPool.BackedExactlyIfCareful`;
- connection ids exactly half the range apart: `Connect.OppositeStuck` with
  `Connect.NotStuck`;
- a counter freed with several operations pending and used again: `Cascade.ReusedCounter`
  with `Cascade.Engine.Free`;
- a failed trylock: `TicketLock.TryFails` and `TicketLock.FailedTryWedges` with
  `TicketLock.EntersExactlyIfClear`.

Check everything with `dafny verify dfyconfig.toml`.

## Model

| member | source | states |
|---|---|---|
| `TriggerSteps.NoLostTrigger` | src/ib/ptl_ct.c:513-616 | whenever every increment, post and walk has returned, the operations that have fired, each once, are exactly those posted with a threshold that the sum of the increments made reaches; the others are queued, `list_size` counts them and the lock is free |
| `TriggerSteps.Counted` | src/ib/ptl_ct.c:688-707 | at every step of every run each field of the counter is the sum of the increments made to it, and an operation waits for the threshold it was posted with |
| `TriggerSteps.NeverStuck` | src/ib/ptl_ct.c:513-616 | whoever has not returned can take its next step, or the holder of the lock can |
| `TriggerSteps.SafeWalks` | src/ib/ptl_ct.c:513-616 | at every step the shared cursor `trig_list_tmp` is unset or points at a linked element or the head, one thread at most is in the locked section, and an operation that fires is met and has not fired before |
| `TriggerSteps.InvStep` | src/ib/ptl_ct.c:993-1063 | every step of an unlocked increment, of a post with its second test, and of a walk keeps the invariant that a met queued operation lies ahead of a walker or of a pending check |
| `TriggerSteps.InvRun` | src/ib/ptl_ct.c:688-707 | the invariant holds in every state of every interleaving |
| `TriggerSteps.CoverWalk` | src/ib/ptl_ct.c:513-570 | a walker that moves on leaves no met operation behind it without someone to come for it, although the counter may have changed since its torn read |
| `TriggerSteps.CoverRepost` | src/ib/ptl_ct.c:993-1063 | a poster that links its operation and sees the counter unmet in the second test leaves a later increment to see the list |
| `CascadeSpec.OrderIrrelevant` | include/portals4.h:2975-3002 | without set operations any two orders of releasing ready operations until none is left release the same operations and end with the same counters and lists |
| `CascadeSpec.ReleasedBySettled` | include/portals4.h:2975-3002 | an operation some order releases is released by every order that settles |
| `CascadeSpec.LegalOnce` | src/ib/ptl_ct.c:513-616 | no operation is released twice |
| `CascadeSpec.LegalValues` | src/ib/ptl_ct.c:688-707 | each field of a counter ends at its value plus the sum of that field of the amounts of the operations released, whatever their order (failures where an amount has no successes) |
| `CascadeSpec.LegalLists` | src/ib/ptl_ct.c:513-616 | a list ends as it was without the operations released, in the same order |
| `CascadeSpec.MoveCounts` | src/ib/ptl_init.c:955-1007 | a move that counts several events, as an increment of a counter of its own on which its counts wait: once that counter is settled every count has been made, whatever the others released in between |
| `Cascade.Engine.CtCheck` | src/ib/ptl_ct.c:513-616 | the recursive walk terminates, releases operations only when they are ready, and leaves its counter with no ready operation if its own `list_size` is exact; every other counter with an exact `list_size` is unchanged or has no ready operation; the first operation, if ready, is queued no more, whatever `list_size` is; where no release touches a counter all that are ready run, in issue order |
| `Cascade.Engine.Take` | src/ib/ptl_ct.c:528-610 | the operation is queued no more, and even if it re-enters the same counter everything the cursor has passed is still unready, while the `list_size` of that counter is exact |
| `Cascade.Engine.DoTrigOp` | src/ib/ptl_ct.c:962-984 | a triggered increment or set has its effect unless the target is interrupted, a counting move always, and its cascade leaves every counter with an exact `list_size` unchanged or settled; where nothing waiting is ready for it a set leaves the target at exactly its value, an increment or a count at its fields plus those of the amount, and nothing else changes |
| `Cascade.Engine.CtInc` | src/ib/ptl_ct.c:688-707 | an increment and its cascade are an order of releases the specification allows; the counter is settled after it if its own `list_size` is exact, and every other such counter is unchanged or settled; nothing is released if the list is no longer than `list_size` falls short of it, otherwise the first operation is if it is ready; where nothing waiting is ready, the fields grow by those of the amount and nothing else changes |
| `Cascade.Engine.CtSet` | src/ib/ptl_ct.c:624-633 | the same for a set, which looks away only if the list is exactly as long as `list_size` falls short; where nothing waiting is ready the counter is at exactly the value |
| `Cascade.Engine.MakeCtEvent` | src/ib/ptl_ct.c:1072-1088 | a counted event and its cascade are an order of releases the specification allows, and leave every counter with an exact `list_size` unchanged or settled; where nothing waiting is ready, the fields grow by those of the amount |
| `Cascade.Engine.PtlCtInc` | src/ib/ptl_ct.c:721-761 | refused when both fields are to grow; each settled counter with an exact `list_size` stays settled, and the incremented one is settled if its `list_size` is exact; with all of them exact and settled and no set operations the outcome is the only one any order of releases can have; where nothing waiting is ready `success` and `failure` grow by those of the amount and nothing else changes; without set operations every counter ends at its value plus the call and what is released; what is left on an exact counter waits for more than it has |
| `Cascade.Engine.PtlCtSet` | src/ib/ptl_ct.c:647-680 | each settled counter with an exact `list_size` stays settled, and the one set is settled if its `list_size` is exact; where nothing waiting is ready the counter is at exactly the value |
| `Cascade.Engine.Post` | src/ib/ptl_ct.c:993-1063 | a met operation runs at once, an unmet one becomes the newest of its list; each settled counter with an exact `list_size` stays settled, but for an interrupted one on which an unmet operation is queued; a met set leaves its value, a met increment adds |
| `Cascade.Engine.TriggeredCt` | src/ib/ptl_ct.c:787-955 | the user call runs the operation or queues it, refuses without change exactly for bad arguments or a missing buffer, and keeps counters settled as posting does; a met set leaves its value, a met increment adds |
| `Cascade.Engine.CancelTriggered` | src/ib/ptl_ct.c:253-287 | one counter's list is emptied in issue order; no counter's value and no other list changes |
| `Cascade.Engine.Free` | src/ib/ptl_ct.c:185-226 | the pending operations are discarded and the counter reset; its `list_size` then falls short by all of them but one, never by less than before, so it is exact afterwards exactly when it was and at most one was pending |
| `Cascade.ReusedCounter` | src/ib/ptl_ct.c:59-70 | of a counter freed and used again: the first operation queued on it, whatever it does, stays queued after an increment that meets its threshold exactly when `list_size` had fallen short before or more than one operation was pending; otherwise it is released |
| `CountedStack.LinearizableRuns` | src/ib/ptl_lockfree.h:71-123 | every run of pushes and pops, with torn first reads in either order and stale `next` reads, is linearizable, and the links in memory spell the abstract stack |
| `CountedStack.SafeObjects` | src/ib/ptl_lockfree.h:71-123 | each object is on the list once and owned by nobody, or off it and owned by one thread |
| `CountedStack.CasTakesTop` | src/ib/ptl_lockfree.h:85-103 | a compare-and-swap that succeeds acts on the true top of the stack |
| `CountedStack.PopTakesTop` | src/ib/ptl_lockfree.h:71-104 | a successful pop installs what is really below the top, however old its read of `next` |
| `CountedStack.PushTakesTop` | src/ib/ptl_lockfree.h:106-123 | a successful push links its object to the top, translated into the list owner's addresses |
| `CountedStack.InvStep` | src/ib/ptl_lockfree.h:71-123 | every step of every thread keeps the invariant |
| `CountedStack.InvRun` | src/ib/ptl_lockfree.h:125-129 | the invariant holds from the empty list on in every interleaving |
| `MrCache.Find` | src/ib/ptl_mr.c:333-359 | the descent finds a region holding the request exactly when some region of the tree holds it; on a miss `left_node` is the last region starting at or before it |
| `MrCache.Merge` | src/ib/ptl_mr.c:361-410 | the merged range is the request and the regions it absorbs without a gap, the regions absorbed are consecutive, and the next one does not touch it |
| `MrCache.MergeRight` | src/ib/ptl_mr.c:375-410 | the extension to the right, and the removal list with the first region at its end |
| `MrCache.SpanLeft` | src/ib/ptl_mr.c:366-373 | the extension to the left |
| `MrCache.DownGreatest` | src/ib/ptl_mr.c:188-192 | rounding down gives the greatest multiple of the page size not above |
| `MrCache.UpLeast` | src/ib/ptl_mr.c:188-192 | rounding up gives the least multiple of the page size not below |
| `MrCache.RoundedCover` | src/ib/ptl_mr.c:188-192 | the rounded region covers the rounded request and the absorbed regions, no more |
| `MrCache.RemoveAll` | src/ib/ptl_mr.c:447-453 | removing the list leaves the other regions in order |
| `MrCache.InsertMerged` | src/ib/ptl_mr.c:455-464 | the inserted key never collides with one in the tree |
| `MrCache.InsertAt` | src/ib/tree.h:589-615 | insertion adds the node at its place in the order |
| `MrCache.Cache.Lookup` | src/ib/ptl_mr.c:305-471 | a hit or a failed registration changes nothing; a miss returns a region holding the request and adds exactly the page-rounded request to what is covered; regions stay page-aligned, nonempty and disjoint exactly unless an unheld zero-length request at a page boundary is registered |
| `MrCache.Cache.Invalidate` | src/ib/ptl_mr.c:497-512 | exactly the region with the cookie is removed, with exactly its addresses |
| `MrCache.EmptyRegionCollides` | src/ib/ptl_mr.c:455-464 | for any page size, boundary and later request from inside that page: a zero-length lookup at the boundary leaves an empty region, which the request misses, is not merged with, and whose key it rounds to, so that it is not inserted |
| `EventRing.EventQueue.GetEvent` | src/ib/ptl_eq_common.c:51-88 | against the log of all posted events: the oldest unread event still in the ring is returned, PTL_EQ_DROPPED exactly when more than `count` were unread, empty exactly when none was; for any number of laps |
| `EventRing.EventQueue.ReserveEv` | src/ib/ptl_eq.c:446-475 | the log grows by the event, the ring keeps its last `count` entries, and overflow is raised exactly at `count_simple` with an entry attached |
| `EventRing.EventQueue.ProcessOverflowing` | src/ib/ptl_eq.c:478-505 | one notice per enabled entry in list order, none enabled after it |
| `EventRing.EventQueue.MakeEvent` | src/ib/ptl_eq.c:596-608 | filling the unreserved slots ends with at most `count` used and no entry enabled; an armed queue stays armed, and while it is armed and an entry is enabled no unread event is overwritten |
| `EventRing.EventQueue.Advance` | src/ib/ptl_eq_common.c:66-82 | index and generation move on together |
| `EventRing.EventQueue.constructor` | src/ib/ptl_eq.c:112-132 | an empty queue with one reserved slot per portal table index |
| `EventRing.EventQueue.Attach` | src/ib/ptl_pt.c:127-144 | attaching an enabled entry leaves the queue armed exactly below `count_simple` |
| `EventRing.EventQueue.SetState` | src/ib/ptl_pt.c:353-361 | so does enabling one; disabling never disarms |
| `EventRing.Overrun` | src/ib/ptl_eq.c:466-472 | every queue that is not armed loses an unread event to a burst of events with an entry still enabled: with the promise for armed queues this makes being armed the exact condition |
| `EventRing.ReenabledTooEarly` | src/ib/ptl_eq.c:466-472 | the smallest such queue, reached by calls: one entry, enabled again while the reserved slot is in use |
| `EventRing.NoticesExactly` | src/ib/ptl_eq.c:488-502 | each enabled entry is named by exactly one notice and nothing else is |
| `EventRing.Reserved` | src/ib/ptl_eq.c:112-113 | entries with distinct indices up to `max_pt_index` are at most as many as the reserved slots |
| `EventRing.Behind` | src/ib/ptl_eq_common.c:66-74 | the slot of an unread event carries a later generation exactly when the producer is more than a lap ahead |
| `EventRing.SamePosition` | src/ib/ptl_eq_common.c:34-38 | same slot and generation is the same position in the log |
| `InitiatorSpec.ExactlyOnce` | src/ib/ptl_init.c:1183-1303 | a run that ends without an error generates each selected send event once, then each selected ack or reply event once, the latter missing only if the message was undeliverable; what is posted follows the options |
| `InitiatorSpec.InOrderAtMostOnce` | src/ib/ptl_init.c:799-1091 | at every point of every run the events so far are the first of those selected, in that order |
| `InitiatorSpec.ToldRun` | src/ib/ptl_eq.c:514-546 | every posted ack or reply event carries the failure code of the response, or undeliverable if delivery failed; a posted send event carries undeliverable exactly if delivery had failed and no failure otherwise, whatever the response says; a counting event counts a failure exactly if the buffer has one |
| `InitiatorSpec.Truthful` | src/ib/ptl_init.c:829-950 | in every state of every run a reply event is made only after a response, with the data it brought copied in; the events of a message that was not sent say undeliverable; a send event before any response and failure means data that travelled in the message, which was inlined or has left; a cancelled request has no event |
| `InitiatorSpec.Patient` | src/ib/ptl_init.c:337-363 | a request that was sent is done only when its message was inlined, has left, has failed or was answered, and where the target responds only when it has failed or was answered; it waits for a completion only if not inlined, for a response only with a reason |
| `InitiatorSpec.FailureSticks` | src/ib/ptl_recv.c:136-170 | after a failure the buffer and every event made stay undeliverable, whatever arrives |
| `InitiatorSpec.History` | src/ib/ptl_init.c:462-541 | at every point an error is recorded exactly if preparing, connecting or copying was answered no where it was asked, a failure exactly if sending was, a completion was in error or an undeliverable response was taken; sent and copied exactly if they were answered yes |
| `InitiatorSpec.OnlyIfAnswered` | src/ib/ptl_init.c:462-541 | from the answers of a run alone: no failure without a refused send, a completion in error or an undeliverable response; no error without a refused preparation, copy or, where there was no connection, connect; nothing is sent without a connection |
| `InitiatorSpec.AllYes` | src/ib/ptl_init.c:1183-1303 | with all answers yes, no failure and no cancellation a request that is done was sent and has generated all its events |
| `InitiatorSpec.ReleasedOnce` | src/ib/ptl_init.c:1115-1159 | each descriptor reference is dropped at most once and by the end exactly once, on every path |
| `InitiatorSpec.Disciplined` | src/ib/ptl_init.c:780-886 | the early send state holds the put descriptor, the response states hold a response, and a waiting request has asked for the completion or response it waits for |
| `InitiatorSpec.Progress` | src/ib/ptl_init.c:1183-1303 | a step changes nothing exactly where the machine waits or is done, else its rank grows |
| `InitiatorSpec.Planned` | src/ib/ptl_init.c:342-363 | the prepared mask selects the events the descriptors ask for, and a request that expects no response has no response event and no send event left to a response |
| `InitiatorSpec.InvStep` | src/ib/ptl_init.c:462-541 | every handler keeps the conservation of events and references |
| `InitiatorSpec.InvOutside` | src/ib/ptl_recv.c:136-170 | so does a completion or a response that arrives between any two steps |
| `InitiatorSpec.InvRun` | src/ib/ptl_init.c:124-206 | the invariant holds in every state of every schedule |
| `Initiator.InitBuf.ProcessInit` | src/ib/ptl_init.c:1183-1303 | the loop terminates, does what the transition system does until it waits, returns PTL_FAIL exactly when it passed the error state, and stays within reachable states |
| `Initiator.InitBuf.Dispatch` | src/ib/ptl_init.c:1197-1290 | each case of the switch is one step of the transition system, without dropping a descriptor that is not held |
| `Initiator.EventBits` | src/ib/ptl_init.c:147-203 | the event bits set for the operation are those the descriptors select |
| `Initiator.OptionBits` | src/ib/ptl_init.c:128-145 | the option bits copied from the descriptors |
| `Initiator.SendBits` | src/ib/ptl_init.c:342-363 | the mask after preparation, and when the header's `ack_req` is forced |
| `Initiator.InitBuf.SendRequest` | src/ib/ptl_init.c:462-513 | send_req as a step: sent and waiting for what it needs, or, if the transport refuses, the send error |
| `Initiator.InitBuf.EarlySendEvent` | src/ib/ptl_init.c:799-817 | the put descriptor, held, is dropped before the send events |
| `Initiator.InitBuf.WaitReceive` | src/ib/ptl_init.c:829-886 | waiting, failing over to the send error state, or taking the response; data it brought for a get is to be copied before any event |
| `Initiator.InitBuf.LateSendEvent` | src/ib/ptl_init.c:955-973 | the late send events |
| `Initiator.InitBuf.AckState` | src/ib/ptl_init.c:983-1007 | the ack events |
| `Initiator.InitBuf.ReplyState` | src/ib/ptl_init.c:1071-1091 | the reply events, after the get descriptor is dropped |
| `Initiator.InitBuf.SendErrorState` | src/ib/ptl_init.c:527-541 | the send error state |
| `Initiator.InitBuf.CleanupState` | src/ib/ptl_init.c:1115-1159 | whatever is still held is dropped |
| `Initiator.InitBuf.MakeEvent` | src/ib/ptl_eq.c:514-546 | the selected event is generated, posted with the code the user is to see or suppressed as the options say, and its bit cleared |
| `Initiator.InitBuf.MakeCtEvent` | src/ib/ptl_ct.c:1072-1088 | the counting event counts a failure, an event, the requested or the delivered bytes as code and options say, and its bit is cleared |
| `Initiator.InitBuf.Complete` | src/ib/ptl_recv.c:136-170 | a completion, in error or not, as an outside step |
| `Initiator.InitBuf.Respond` | src/ib/ptl_recv.c:384-420 | a response as an outside step |
| `Connect.OneRequest` | src/ib/ptl_conn.c:532-620 | for any two ids, of two crossing requests at most one is accepted, that of the peer whose id compares higher, and two connected peers are connected by the same one |
| `Connect.NotStuck` | src/ib/ptl_conn.c:693-806 | when nothing is under way both peers are connected, or neither has begun, for ids not half the range apart |
| `Connect.Bounded` | src/ib/ptl_conn.c:693-806 | every exchange ends within twelve steps, for any two ids |
| `Connect.OppositeStuck` | src/ib/ptl_conn.c:593-611 | for any ids exactly half the range apart there is a run after which both peers stay connecting for good |
| `Connect.Decides` | src/ib/ptl_conn.h:289-296 | of two distinct ids exactly one compares higher, except for opposite ids, where each takes the other for the lower; it is the one with the larger deciding component exactly if they are less than half the range apart |
| `Connect.InvStep` | src/ib/ptl_conn.c:409-464 | every event keeps the invariant on what each connection rides on, for any two ids |
| `Connect.YieldStep` | src/ib/ptl_conn.c:593-611 | with one id the higher, a refused peer can always rely on the request of the other |
| `Connect.SoundRun` | src/ib/ptl_conn.c:693-806 | both invariants hold in every order of events |
| `Connect.Exchange.Deliver` | src/ib/ptl_conn.c:565-611 | the handlers, updating two connections in place, do to both what one step of the exchange does, keep the invariant and bring the exchange nearer its end |
| `Connect.Exchange.Settle` | src/ib/ptl_conn.c:693-806 | from any state of an exchange in place, delivering what is under way in any order ends with nothing under way, and with both ends connected if anything was begun and the ids are not half the range apart |
| `Segments.Memcpy` | src/ib/ptl_iov.c:55-56 | a copy in progress is carried forward by its bytes |
| `Segments.CopiedHit` | src/ib/ptl_iov.c:49-61 | with no destination address twice each holds its source byte |
| `Segments.CopiedMiss` | src/ib/ptl_iov.c:49-61 | no other address changes |
| `Segments.Piece` | src/ib/ptl_iov.c:229-281 | a stretch of one element is consecutive in the flat list |
| `Iovec.CopyOut` | src/ib/ptl_iov.c:22-66 | copies what the range holds of the flat view; succeeds exactly if there is an element and offset + length is at most the total |
| `Iovec.CopyIn` | src/ib/ptl_iov.c:80-119 | copies what fits into the flat view; succeeds exactly if offset is below the total and offset + length is at most it |
| `Iovec.SkipOut` | src/ib/ptl_iov.c:29-42 | the first element that reaches the offset, if any |
| `Iovec.SkipIn` | src/ib/ptl_iov.c:87-98 | the element that holds the byte at the offset, if any |
| `Iovec.CountElem` | src/ib/ptl_iov.c:229-281 | the start element, the offset in it and the least number of elements covering the range; -1 exactly if it does not lie in the iovec |
| `Iovec.HoldsUnique` | src/ib/ptl_iov.c:236-252 | the start element is the only one |
| `Iovec.CopyInSplices` | src/ib/ptl_iov.c:80-119 | with no address twice, the range of the flat view holds the source |
| `Iovec.CopyInKeeps` | src/ib/ptl_iov.c:80-119 | nothing outside the range changes |
| `Iovec.RoundTrip` | src/ib/ptl_iov.c:22-119 | what was copied in is copied out unchanged |
| `MemTransfer.MemDoTransfer` | src/ib/ptl_mem.c:148-193 | in both directions exactly the bytes reported as gone have crossed between the two flat lists, both cursors moved on by as many and nothing else changed; it succeeds on all of them exactly if no remote segment that starts before the last byte is empty and none is lacking |
| `MemTransfer.DoMemCopy` | src/ib/ptl_mem.c:61-139 | a run of remote addresses crosses to or from the local elements, short only at their end |
| `MemTransfer.CopyMemToMem` | src/ib/ptl_mem.c:10-36 | the copy in the direction of the transfer |
| `MemTransfer.RemoteFlat` | src/ib/ptl_mem.c:162-165 | the remote addresses met are the flat list from the cursor on, for KNEM always, for the PPE exactly at the start of a segment, where every caller starts it (src/ib/p4ppe.c:586, 595) |
| `MemTransfer.FlatCopyIn` | src/ib/ptl_mem.c:148-193 | with no local address twice, the j-th byte from the local cursor is the j-th from the remote cursor |
| `MemTransfer.FlatCopyOut` | src/ib/ptl_mem.c:148-193 | the same in the other direction |
| `MemTransfer.TransferTurn` | src/ib/ptl_mem.c:160-190 | one remote segment, and the two ways to fail |
| `Unexpected.NoneOverlooked` | src/ib/ptl_me.c:165-193 | in every reachable state, with arrivals and a moving local offset while an appender has dropped the lock, no waiting header matches a linked priority entry, headers wait in arrival order, and every message waits or has met one fate |
| `Unexpected.AppendOutcome` | src/ib/ptl_me.c:165-193 | in every run, from an append on, the entry is with its appender or the append has ended: it was linked, or denied room, when nothing waiting matched it, or it is USE_ONCE and has taken a header |
| `Unexpected.AppendedReceives` | src/ib/ptl_me.c:165-193 | from any state, an entry appended with room while nothing waiting matches it gets the next permitted message that no earlier entry matches |
| `Unexpected.OverflowReceives` | src/ib/ptl_tgt.c:657-790 | a message that only an appended overflow entry matches waits, and an append that matches it takes it before anything is linked |
| `Unexpected.ArrivalFate` | src/ib/ptl_tgt.c:657-790 | a message whose first match on the priority list is an entry is delivered to it if permitted and refused otherwise; failing that it waits at its first overflow match, or is delivered there without a header, if permitted and there is room; else it is refused |
| `Unexpected.MatchingTaken` | src/ib/ptl_le.c:280-357 | a check or a deleting search claims every waiting header that matches, or the oldest for USE_ONCE, and leaves the others |
| `Unexpected.FateFrom` | src/ib/ptl_le.c:359-402 | a message met its fate on arrival, or waited and matched the entry that claimed it |
| `Unexpected.ListsKept` | src/ib/ptl_le.c:419-440 | only its unlinking takes an entry off a list and only an append puts one on it, at the end |
| `Unexpected.SettledStep` | src/ib/ptl_le.c:419-440 | every critical section keeps unexpected headers and priority entries from matching |
| `Unexpected.ConservedStep` | src/ib/ptl_le.c:359-402 | no message is lost or taken twice |
| `Unexpected.FateSealed` | src/ib/ptl_le.c:359-402 | what became of a message does not change |
| `Unexpected.SplitMatches` | src/ib/ptl_le.c:280-357 | what an entry takes matches it, is empty exactly if nothing matches, one at most for USE_ONCE, else all |
| `Unexpected.SplitAll` | src/ib/ptl_le.c:280-357 | taken and left are together the list |
| `Unexpected.SplitOrder` | src/ib/ptl_le.c:280-357 | both keep the order of arrival |
| `Unexpected.OldestTaken` | include/portals4.h:1570-1584 | a USE_ONCE entry takes the oldest header that matches |
| `Unexpected.Pt.MatchLeUnexpected` | src/ib/ptl_le.c:280-357 | the walk takes and leaves what the split says |
| `Unexpected.Pt.CheckOverflowSearchOnly` | src/ib/ptl_le.c:451-528 | the search reports what a search-and-delete would remove |
| `Unexpected.Pt.CheckOverflowSearchDelete` | src/ib/ptl_le.c:539-581 | the search removes what it reports |
| `Unexpected.Pt.GetMatch` | src/ib/ptl_tgt.c:661-683 | the first match on the priority list, failing that on the overflow list |
| `Unexpected.MatchesShrink` | src/ib/ptl_tgt.c:532-571 | an entry whose local offset has moved on matches no more than before |
| `Unexpected.MatchesExactly` | src/ib/ptl_tgt.c:532-571 | a match entry matches exactly the messages from its source or any, that fit where it must not truncate, with every match bit outside the ignored ones equal, bit by bit |
| `ObjPool.Partition` | src/ib/ptl_obj.c:363-449 | every object created is on the free list, live with a positive count, or in the hands of one thread, and in one of these places only; its count is the number of references handed out; in every state up to which `to_obj` has taken its references while others were held |
| `ObjPool.CountBounds` | src/ib/ptl_obj.c:394-449 | in such states `count` is never below the number of live objects and equal to it when no thread is in between |
| `ObjPool.IndexUnique` | src/ib/ptl_obj.c:39-55 | no two objects of any pools share an index, in any run |
| `ObjPool.HandleResolves` | src/ib/ptl_obj.c:462-507 | in such states a live object's handle resolves to it and a free one's to nothing; what resolves otherwise is in the window of its allocation or release |
| `ObjPool.ResolvesExactly` | src/ib/ptl_obj.c:462-507 | in every state of every run, for any kind and handle: it resolves to an object exactly if that has the index, is not free and, where a kind is asked for, is of that kind and so is the handle unless it has no type; a handle of another type resolves to nothing |
| `ObjPool.TakeExact` | src/ib/ptl_obj.c:462-507 | in every state that keeps the invariant, the reference `to_obj` takes after its checks keeps it, and keeps references to live objects only, exactly when the object is still live |
| `ObjPool.BackedExactlyIfCareful` | src/ib/ptl_obj.c:462-507 | up to any state of a run references are to live objects only, with counts to match, exactly if every `to_obj` so far has taken its reference while another one was held |
| `ObjPool.HeldThroughout` | src/ib/ptl_obj.c:462-507 | a reference held from the checks to the take suffices, the take itself not presupposed: the object is live at the take and is the one the handle stood for |
| `ObjPool.ToObjRace` | src/ib/ptl_obj.c:462-507 | for every live object with one reference there is a run of five steps after which `to_obj` has counted a reference on an object on the free list |
| `ObjPool.Allocates` | src/ib/ptl_obj.c:363-449 | such an object is reached by allocating from any pool |
| `ObjPool.HandleRoundTrip` | src/ib/ptl_obj.h:112-131 | index and type are recovered from a handle |
| `ObjPool.CountsStep` | src/ib/ptl_obj.c:394-449 | `count` is the live objects and the threads in between, pool by pool |
| `ObjPool.InvStep` | src/ib/ptl_obj.c:363-449 | every step keeps the invariant, if a reference taken by `to_obj` is taken while another is held |
| `ObjPool.InvRun` | src/ib/ptl_obj.c:163-232 | the invariant holds in every such state of every interleaving of allocations, slab growth, look-ups and releases |
| `IntrusiveList.Add` | src/ib/ptl_list.h:42-45 | the entry becomes the first of the sequence |
| `IntrusiveList.AddTail` | src/ib/ptl_list.h:47-51 | the entry becomes the last of the sequence |
| `IntrusiveList.Insert` | src/ib/ptl_list.h:33-40 | an entry between any two neighbours keeps the ring |
| `IntrusiveList.Remove` | src/ib/ptl_list.h:53-57 | taking one out keeps the ring |
| `IntrusiveList.Del` | src/ib/ptl_list.h:62-67 | the entry leaves the sequence, poisoned |
| `IntrusiveList.DelInit` | src/ib/ptl_list.h:69-73 | the entry leaves the sequence as an empty list |
| `IntrusiveList.IsSingular` | src/ib/ptl_list.h:80-83 | exactly one entry |
| `IntrusiveList.SpliceBetween` | src/ib/ptl_list.h:115-127 | the entries of one list between any two neighbours of another |
| `IntrusiveList.Splice` | src/ib/ptl_list.h:138-143 | put before the other sequence |
| `IntrusiveList.SpliceInit` | src/ib/ptl_list.h:129-136 | the same, and the spliced list is empty |
| `IntrusiveList.SpliceTail` | src/ib/ptl_list.h:145-150 | put behind the other sequence |
| `IntrusiveList.Cut` | src/ib/ptl_list.h:99-113 | the sequence is cut behind the entry; the special cases leave both lists as they say |
| `IntrusiveList.WalkPrevSafe` | src/ib/ptl_list.h:179-181 | the reverse safe walk visits the sequence backwards, each entry once, whichever of the visited it deletes, and keeps the others |
| `TicketLock.MutualExclusion` | src/ib/ptl_locks.h:18-39 | one thread at most is inside, threads enter in ticket order without a gap, and with no failed trylock the lock is free exactly when `enter` equals `exit` |
| `TicketLock.TryFails` | src/ib/ptl_locks.h:32-39 | a run in which a trylock on a held lock loses its ticket |
| `TicketLock.FailedTryWedges` | src/ib/ptl_locks.h:32-39 | after a failed trylock, whatever follows, `exit` never passes its ticket and no later ticket gets inside |
| `TicketLock.EntersExactlyIfClear` | src/ib/ptl_locks.h:18-39 | in every state that keeps the invariant a thread with a ticket can still get inside exactly when no ticket before its own has been lost to a failed trylock |
| `TicketLock.InvRun` | src/ib/ptl_locks.h:26-39 | every ticket not yet served is held by one thread or lost, in every interleaving |

## Left out

- Transports: calls into RDMA, libev, XPMEM, KNEM, sockets and ummunotify are outside steps or answers given as parameters; `addr_to_ppe` is the identity.
- The light library, the command wrappers and the argument checks of `src/ib/p4ppe.c`, `src/ib/ptl_light_lib.c` and `src/ib/ptl_move.c`, the id, interface and parameter code: they would only add easy members.
- The target state machine beyond its search for a matching entry, and the receive path beyond completions and responses.
- UDP branches, and the bounce-buffer states of the initiator in builds without KNEM.
- Machine integers: counters, generations, tickets, addresses and reference counts do not wrap; `compare_id` alone is modelled with 32-bit differences.
- Memory order: the step machines are sequentially consistent.
- `ct_set` and the unlocked first test of PtlTriggeredCTInc and PtlTriggeredCTSet in `TriggerSteps`: the concurrent model has increments only; sets are in `Cascade`.
- Cascade.Engine.CtCheck: issue order is stated only where no released operation changes a counter, because a nested walk of the same counter may run a later-met older operation first.
- Cascade.Engine.DoTrigOp: a triggered move counts one event at most; one that counts a send and an acknowledgement is an increment of a counter of its own on which the two counts wait (`CascadeSpec.MoveCounts`).
- Cascade.Engine.TriggeredCt: reference counts of the counters, which the fast path does not drop, are not part of the model.
- The colours and rotations of the red-black tree, the fatal error on its return value, the uncached mode and the retry after EFAULT.
- EventRing.EventQueue.Attach: that no portal table entry is attached twice is a requirement; freeing an entry does not take it off the flow-control list.
- MemTransfer.MemDoTransfer: room for the residue on both sides is required, and the registration lookups succeed.
- `iov_atomic_in`, floating-point and complex atomics, logging.
- Entries with both PTL_ME_MANAGE_LOCAL and PTL_ME_LOCAL_INC_UH_RLENGTH, the unordered hash, the counting events of a search, and the processing of a message after it is taken off the unexpected list.
- Parents of pool objects; the free list of a pool is a set here, its order is in `CountedStack`.
- Connection failures, disconnection and connections to oneself; the handlers of one end are modelled but stated only as parts of `Connect.Exchange`.
