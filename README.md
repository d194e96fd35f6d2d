# manualmira connection lifecycle and address cache, in Dafny

manualmira is a small C++ library over RDMA that has two parts.

**Connection layer** (src/rdma.cpp, include/manualmira/rdma.h)
- It sets up reliable connections with librdmacm and libibverbs.
- A listening `server` creates an event channel and a listening id, then binds the id. `accept` provisions a protection domain (PD), a completion queue (CQ) and a queue pair (QP) for each incoming request.
- On the client side, `connect` resolves the address. It then creates the same resources, resolves the route and dials.
- Every step waits for a connection-manager event of the expected type, which `await_cm_event` filters out of the channel.
- Every failed native call is meant to release what was acquired so far, latest first.

**Address cache** (include/manualmira/cache.h)
- It models a set-associative cache.
- An address is split into tag, index and offset bit slices (`entry`).
- `cache::get` bounds-checks the access and searches the ways of one set.

Modules, one file each:

- `Outcomes` (outcomes.dfy): `Option`, the library's errors, one per runtime error it throws, and `Outcome`.
  - An `Outcome` is a value, an error, or `Stuck`.
  - `Stuck` stands for a wait that never returns.
- `CmEvents` (events.dfy): CM events, and the wait loop as a pure function of everything the channel will ever deliver.
- `Verbs` (verbs.dfy): the native libraries as one tracker class, `Native`.
  - Every foreign call is a method of `Native`.
  - A fallible call takes an oracle flag saying whether it fails.
  - The tracker keeps:
    - the live handles;
    - the events retrieved and not yet acknowledged;
    - the deliveries each channel still has to make;
    - a history (`Log`) of the makes, releases, requests and acknowledgements.
- `Await` (await.dfy): the two waiting helpers, as loop and method.
- `Rdma` (rdma.dfy): the rdma.cpp code.
  - The `server` class: its constructor, moves, destructor, `listen` and `accept`.
  - `connect`.
  - Alongside them, the functions that say what those operations do: `AcceptRun` and `ConnectRun`.
    - Each gives the result, the history, the handles left live, the events consumed and the deliveries left.
    - Each takes the failing calls and the channel's deliveries as input.
    - The methods are proved to do exactly what they say.
- `Lifecycle` (lifecycle.dfy): what those functions imply.
  - When success happens, the events in order, and the resources handed over.
  - Which errors are possible.
  - A failed native call rolls back exactly what was made, in reverse order.
  - The exception is the queue pair that `connect` leaves behind (see Findings).
- `Registry` (registry.dfy): the owners declared in rdma.h.
  - `addrinfo`, and `connection` with its `mr_bufs_` registry of memory regions.
  - The three-step `server`, `resolve`, and `connect(const addrinfo&)`.
  - Only the declarations and their comments are available, so these are modelled by the promises of those declarations and comments.
- `Cache` (cache.dfy): the slices as arithmetic on naturals below 2^64, and the cache as a class holding an array of sets.

## Model

| member | source | states |
|---|---|---|
| CmEvents.FirstStop | manualmira/src/rdma.cpp:19-22 | the position at which the wait stops: the first failed retrieval or wanted event; every earlier delivery is an event it drops |
| CmEvents.WaitDoneIff | manualmira/src/rdma.cpp:15-24 | the wait returns event e exactly when e is the first delivery with status 0 and the expected type, and every earlier delivery is an unwanted event |
| CmEvents.WaitFailsIff | manualmira/src/rdma.cpp:20-21 | the wait fails exactly when a retrieval fails before a wanted event arrives, and the error is the retrieval error |
| CmEvents.WaitStuckIff | manualmira/src/rdma.cpp:19-22 | the wait never returns exactly when no delivery stops it |
| CmEvents.ConsumedIsPrefix | manualmira/src/rdma.cpp:19-22 | the consumed events are the channel's first deliveries, in delivery order, up to and including the stop when it is an event |
| CmEvents.FirstStopPrefix | manualmira/src/rdma.cpp:19-22 | deliveries after the stop do not move it |
| CmEvents.WaitIgnoresLater | manualmira/src/rdma.cpp:19-22 | later deliveries change neither the result nor the events consumed, and remain on the channel |
| CmEvents.WaitStep | manualmira/src/rdma.cpp:19-22 | one iteration of the loop: an unwanted event is dropped and the wait goes on; a failed retrieval or a wanted event ends it |
| CmEvents.ConsumedAccount | manualmira/src/rdma.cpp:15-24 | consumed, failed and remaining deliveries add up to all deliveries; every consumed event but the last is unwanted; the last one is the result |
| Await.AwaitCmEvent | manualmira/src/rdma.cpp:15-24 | returns what WaitResult gives for the channel's deliveries; takes off exactly the deliveries up to the stop; every event it retrieves stays unacknowledged, and the returned one is the last retrieved; nothing is made, released or logged |
| Await.AckedWait | manualmira/src/rdma.cpp:26-29 | acknowledging wait: it succeeds only when the wait does and the acknowledgement does not fail; a wait that does not return an event gives its own outcome; a returned event whose acknowledgement fails gives the acknowledgement error; no other error |
| Await.AckLog | manualmira/src/rdma.cpp:26-29 | waiting makes and releases no handle; the acknowledgements grow by exactly the awaited type when the wait returned an event, and stay as they were otherwise |
| Await.AwaitAckCmEvent | manualmira/src/rdma.cpp:26-29 | acknowledges exactly the event the wait returned (its serial leaves the unacknowledged set), fails when that acknowledgement fails, and acknowledges nothing when the wait does not return |
| Rdma.ProvisionError | manualmira/src/rdma.cpp:90-116 | the first failing step among PD, CQ and QP creation; there is one exactly when one of those calls fails |
| Rdma.ProvisionQueuePair | manualmira/src/rdma.cpp:164-196 | PD, CQ and QP in that order, each failure releasing the earlier ones latest first; on success the three are new and live |
| Rdma.Admit | manualmira/src/rdma.cpp:90-130 | what AdmitRun gives: result, history, handles kept, and events consumed |
| Rdma.Server.Open | manualmira/src/rdma.cpp:33-53 | all or nothing: a failed id creation releases the channel; a failed bind releases the id, then the channel; only when all three steps succeed is a server returned, initialised and owning exactly the two new handles |
| Rdma.Server.Moved | manualmira/src/rdma.cpp:55-60 | the new server takes the flag and both handles, and the source is left owning nothing |
| Rdma.Server.MoveAssign | manualmira/src/rdma.cpp:71-78 | the two servers exchange flag and handles, so what each owns passes to the other |
| Rdma.Server.Destroy | manualmira/src/rdma.cpp:62-69 | nothing unless initialised; otherwise it releases the listening id, then the channel, and clears the flag; only that channel's pending deliveries go, every other channel keeps its own |
| Rdma.MoveThenDestroy | manualmira/src/rdma.cpp:55-69 | after a move, the two destructors release the original's handles exactly once, listening id first, and drop the pending deliveries of its channel only |
| Rdma.Server.Listen | manualmira/src/rdma.cpp:80-83 | one listen request on the listening id; a failure is the listen error |
| Rdma.Server.Accept | manualmira/src/rdma.cpp:85-131 | what AcceptRun gives for the server's channel, and the handles it keeps were not live before |
| Rdma.OpenClient | manualmira/src/rdma.cpp:138-160 | addrinfo, channel and id in that order, then address resolution; each failure releases the earlier handles latest first |
| Rdma.RouteRunKeeps | manualmira/src/rdma.cpp:198-220 | route resolution and what follows keep nothing but the six handles they are given |
| Rdma.Connect | manualmira/src/rdma.cpp:133-221 | `connect` as written: what ConnectRun gives without the release of the queue pair; the handles it keeps were not live before |
| Rdma.ConnectFixed | manualmira/src/rdma.cpp:198-216 | `connect` with the queue pair released on the route and connect failure paths: what ConnectRun gives with that release |
| Lifecycle.AcceptSucceedsIff | manualmira/src/rdma.cpp:85-131 | accept returns a connection exactly when: the request arrives; no PD, CQ, QP or accept call fails; and ESTABLISHED arrives and is acknowledged |
| Lifecycle.AcceptSuccess | manualmira/src/rdma.cpp:85-131 | on success, the result holds the server's channel, the provider's id, and the new PD and CQ, and exactly the new PD, CQ and QP are kept; between CONNECT_REQUEST and ESTABLISHED the history is exactly: make PD, CQ and QP, accept, acknowledge the request |
| Lifecycle.ProvisionReversed | manualmira/src/rdma.cpp:96-116 | a failed PD, CQ or QP step releases what the earlier steps made, in the reverse order |
| Lifecycle.AdmitProvisionFails | manualmira/src/rdma.cpp:90-116 | a failed PD, CQ or QP step: its error, nothing kept, the made handles released in the reverse order, and the request acknowledged |
| Lifecycle.AdmitAcceptFails | manualmira/src/rdma.cpp:118-124 | a failed accept releases QP, CQ and PD, then acknowledges the request, and keeps nothing |
| Lifecycle.AcceptRollback | manualmira/src/rdma.cpp:90-124 | any failed native call of accept keeps none of the PD, CQ and QP, rolls back every one of them it made, and still acknowledges the request (the request's own id is not tracked; see Left out) |
| Lifecycle.AcceptThrowKeeps | manualmira/src/rdma.cpp:86-128 | when a wait throws, nothing is released; after the request has arrived, the PD, CQ and QP stay live |
| Lifecycle.OpenReversed | manualmira/src/rdma.cpp:138-160 | a failure among the first four steps releases what came before, in the reverse order |
| Lifecycle.ConnectLinked | manualmira/src/rdma.cpp:138-197 | up to QP creation, connect makes addrinfo, channel, id, PD, CQ and QP in that order, releases nothing, and acknowledges ADDR_RESOLVED |
| Lifecycle.ConnectSucceedsIff | manualmira/src/rdma.cpp:133-221 | connect returns a connection exactly when no native call fails and ADDR_RESOLVED, ROUTE_RESOLVED and ESTABLISHED each arrive, in turn, and are acknowledged |
| Lifecycle.RouteErrors | manualmira/src/rdma.cpp:198-218 | after the QP, the only errors are route resolution, connect, retrieval and acknowledgement |
| Lifecycle.ConnectOpenFailsIff | manualmira/src/rdma.cpp:138-160 | connect fails with an error of its first four steps exactly when one of those calls fails |
| Lifecycle.ConnectProvisionFailsIff | manualmira/src/rdma.cpp:164-196 | connect fails with a PD, CQ or QP error exactly when the first four steps and ADDR_RESOLVED succeed and one of those calls fails |
| Lifecycle.ConnectTornDownIff | manualmira/src/rdma.cpp:198-216 | connect fails with the route or connect error exactly when everything before that call succeeded and the call fails |
| Lifecycle.ConnectErrors | manualmira/src/rdma.cpp:133-221 | connect reports only the errors of its own native calls and of its waits |
| Lifecycle.ConnectSuccess | manualmira/src/rdma.cpp:162-220 | on success, the connection holds five of the six handles (all but the QP, which stays attached to the id), all six are kept, made in order, with nothing released; ADDR_RESOLVED, ROUTE_RESOLVED and ESTABLISHED are acknowledged, in that order |
| Lifecycle.ConnectOpenFails | manualmira/src/rdma.cpp:138-160 | a failure among the first four steps: its error, nothing kept, everything rolled back |
| Lifecycle.ProvisionCloseRollsBack | manualmira/src/rdma.cpp:164-196 | a failed PD, CQ or QP step followed by closing id, channel and addrinfo rolls all of them back |
| Lifecycle.ConnectProvisionFails | manualmira/src/rdma.cpp:164-196 | a failed PD, CQ or QP step: its error, nothing kept, everything rolled back |
| Lifecycle.ConnectRollbackUpToQp | manualmira/src/rdma.cpp:138-196 | every failed native call up to and including QP creation leaves nothing live and rolls back all earlier resources, latest first |
| Lifecycle.ConnectTornDown | manualmira/src/rdma.cpp:198-216 | after a failed route resolution or connect, the six handles were made, and CQ, PD, id, channel and addrinfo are released in that order; the QP is released first only in the fixed version |
| Lifecycle.ConnectLeaksQp | manualmira/src/rdma.cpp:198-216 | as written, those two failures leave the queue pair live and the history is not rolled back |
| Lifecycle.ConnectFixedRollback | manualmira/src/rdma.cpp:198-216 | with the queue pair destroyed first, every failed native call of connect leaves nothing live and rolls everything back |
| Lifecycle.ConnectThrowKeeps | manualmira/src/rdma.cpp:162-218 | when a wait throws or blocks, nothing is released: the three handles made before ADDR_RESOLVED, or all six after it, stay live |
| Lifecycle.ConnectLeakExample | manualmira/src/rdma.cpp:198-205 | one concrete run where the address resolves and route resolution fails: queue pair 5 stays live as written, and nothing does once fixed |
| Registry.AddrInfo.constructor | manualmira/include/manualmira/rdma.h:16 | an owner of the given list, not yet freed |
| Registry.AddrInfo.Destroy | manualmira/include/manualmira/rdma.h:20 | frees its list, once, and nothing else |
| Registry.Connection.constructor | manualmira/include/manualmira/rdma.h:52 | a connection on the given id with an empty registry |
| Registry.Connection.MakeMr | manualmira/include/manualmira/rdma.h:43 | on success, a fresh memory region and a buffer of the given size, entered in the registry as a new key, other entries unchanged; on failure, the (null, null) pair, with the registry and the live handles unchanged |
| Registry.Connection.DestroyMr | manualmira/include/manualmira/rdma.h:45-49 | deregisters a registered region, so exactly its entry leaves the registry; a handle that is not registered changes nothing |
| Registry.Connection.MakeThenDestroyMr | manualmira/include/manualmira/rdma.h:43-49 | make_mr, then destroy_mr of its region twice: registry and live handles as before, the region made and released exactly once, and the second destroy_mr does nothing |
| Registry.Connection.Destroy | manualmira/include/manualmira/rdma.h:45-48 | every region still registered is destroyed exactly once, and the registry ends empty |
| Registry.StepServer.constructor | manualmira/include/manualmira/rdma.h:74-75 | a server holding the given address information and listening id |
| Registry.StepServer.Listen | manualmira/include/manualmira/rdma.h:69 | one listen request on the listening id |
| Registry.StepServer.GetRequest | manualmira/include/manualmira/rdma.h:70 | a connection on the provider's id for the first request, not yet accepted: nothing is logged, so the request can be inspected first |
| Registry.StepServer.Accept | manualmira/include/manualmira/rdma.h:71 | one accept request on the connection's id |
| Registry.Resolve | manualmira/include/manualmira/rdma.h:78 | on success, an address-information owner of a fresh list; on failure nothing is allocated |
| Registry.Connect | manualmira/include/manualmira/rdma.h:79 | a connection on a fresh id with an empty registry; the address information is neither freed nor handed over |
| Cache.BitWidthPow2 | manualmira/include/manualmira/cache.h:34-35 | bit_width(2^k) is k + 1 |
| Cache.PowerIsDefaultWidth | manualmira/include/manualmira/cache.h:33-42 | a count is 2^k exactly when it has a single bit and k is bit_width(count - 1) |
| Cache.PowerBelowWord | manualmira/include/manualmira/cache.h:36-37 | 2^k fits in a word exactly when k is below 64 |
| Cache.CountIsDefault | manualmira/include/manualmira/cache.h:33-42 | a count that is 2^width with a width below 64 is exactly what the static_assert and the default width accept |
| Cache.ValidIsTemplateCheck | manualmira/include/manualmira/cache.h:33-42 | the geometry invariant is exactly what the template accepts with its default widths |
| Cache.EntryGeometry | manualmira/include/manualmira/cache.h:33-42 | a geometry it returns is one the template accepts, for those counts |
| Cache.EntryGeometryComplete | manualmira/include/manualmira/cache.h:33-42 | every accepted parameter set is the one it builds, so the widths are determined by the counts |
| Cache.CountOfOneRejected | manualmira/include/manualmira/cache.h:63-65 | one set, or one-byte lines, would need a zero-width named bit-field, which is rejected |
| Cache.Split | manualmira/include/manualmira/cache.h:47-49 | each slice fits its width |
| Cache.FromPtr | manualmira/include/manualmira/cache.h:44-51 | field bounds: index below SetCount, offset below LineSize, tag below 2^TagWidth |
| Cache.AsPtr | manualmira/include/manualmira/cache.h:57-61 | as_ptr as intended, shifting in a full word: an assembled address fits in a word |
| Cache.AssembleSplit | manualmira/include/manualmira/cache.h:57-59 | splitting a value and assembling the slices gives the value back |
| Cache.SplitAssemble | manualmira/include/manualmira/cache.h:57-59 | assembling in-range slices and splitting gives the slices back |
| Cache.SplitFields | manualmira/include/manualmira/cache.h:47-49 | the slices in arithmetic: offset modulo 2^ow, index modulo 2^iw after shifting, tag the rest |
| Cache.FromPtrFields | manualmira/include/manualmira/cache.h:44-51 | offset = addr mod LineSize, index = (addr / LineSize) mod SetCount, tag = addr / LineSize / SetCount |
| Cache.AsPtrFromPtr | manualmira/include/manualmira/cache.h:44-61 | as_ptr(from_ptr(p)) == p for every word-sized address, for as_ptr as intended |
| Cache.FromPtrAsPtr | manualmira/include/manualmira/cache.h:44-61 | from_ptr(as_ptr(e)) == e for every in-range entry, for as_ptr as intended |
| Cache.AsPtrAsWrittenAgrees | manualmira/include/manualmira/cache.h:57-65 | with index and offset together at most 31 bits wide, as_ptr as written (bit-fields promoted before shifting) gives the intended address for every in-range entry |
| Cache.AsPtrAsWrittenDropsTag | manualmira/include/manualmira/cache.h:57-65 | with index and offset together 32 bits or wider, as written the entry with tag 1 comes back as address 0, or a shift is undefined, instead of 2^(IndexWidth + OffsetWidth) |
| Cache.AsPtrAsWrittenExample | manualmira/include/manualmira/cache.h:44-65 | entry<65536, 65536>: from_ptr(2^32) is tag 1, index 0, offset 0; as intended it assembles back to 2^32, as written to 0 |
| Cache.FirstWay | manualmira/include/manualmira/cache.h:78-79 | the first way whose tag matches, or the way count when none does |
| Cache.GetSizeWrapsAround | manualmira/include/manualmira/cache.h:76 | the check as written lets a (2^64 - 1)-byte access at offset 1 through, although it leaves the line |
| Cache.NewSetLookup | manualmira/include/manualmira/cache.h:26 | a new set has exactly WayCount lines, and a tag is found in it exactly when it is 0 and there is a way, in way 0 |
| Cache.DirectMappedLookup | manualmira/include/manualmira/cache.h:91-92 | with one way, a lookup hits that line or misses |
| Cache.SetAssociative.constructor | manualmira/include/manualmira/cache.h:85-88 | SetCount sets, each a new set of WayCount lines with tag 0 |
| Cache.SetAssociative.DirectMapped | manualmira/include/manualmira/cache.h:91-92 | the one-way instance: each set is one line with tag 0 |
| Cache.SetAssociative.Get | manualmira/include/manualmira/cache.h:73-82 | get with the bounds check as intended (the check as written wraps; see Findings): no location when offset + size exceeds the line size; otherwise the location offset bytes into the first way of set index whose tag matches, and none exactly when no way matches; it changes nothing |

## Left out

- The native libraries are reduced to success or failure plus the bookkeeping of the `Native` tracker. Oracle arguments (`faults`, `ackFails`, `fails`) choose which calls fail.
- Blocking and timeouts are not modelled; this includes the 2000 ms timeouts of address and route resolution. A channel delivers a finite sequence, and a wait that would block for good ends as `Stuck`.
- Concurrency is not modelled.
- Socket address construction and the `rdma_getaddrinfo` hints are not modelled. Host, port and backlog are parameters without effect.
- The queue-pair attributes are not modelled. They are constants passed to the library and do not affect the sequencing.
- The bodies of `server_connection` and `client_connection` are not part of this model. This includes their destructors and the disconnect order. The values returned are plain records of the handles they are constructed from: channel, id, PD and CQ, plus the address information on the client side. The queue pair is not a member of either; it stays attached to the id, so the model keeps it live but does not put it in the record.
- The bytes of memory-region buffers and of cache blocks are not modelled. `get` returns a (set, way, offset) location instead of a pointer.
- Only the declarations of rdma.h are available, so the following are modelled at contract level, by what each declaration and its comment promise:
  - `make_mr`, `destroy_mr` and `~connection`;
  - the three-step server;
  - `resolve` and `connect(const addrinfo&)`.
- Registry.Connection.MakeMr: whether registration fails is an oracle argument; the buffer that a failed registration would have allocated is not modelled.
- Registry.Connect: its one failure is modelled as a failed id creation (`IdCreation`). rdma.h declares `connect(const addrinfo&)` without a body and without naming an error, so this error is an assumption.
- Registry.Connection.Destroy: releases the memory regions only. The declaration does not say whether `~connection` also destroys `id_`.
- Registry.StepServer.GetRequest: neither acknowledges the request event nor says which channel the listening id uses; the declaration does not say.
- Registry.StepServer.constructor: only stores its two handles. How `server(addr, port)` of rdma.h obtains them, and what its destructor releases, is not declared.
- Move-only ownership (deleted copy constructors and copy assignments) has no counterpart in Dafny. Single ownership is stated through the live set instead: a handle can be released only while live, so it is released at most once.
- Rdma.Server.Accept: when the ESTABLISHED wait throws, the PD, CQ and QP stay live, because the code has no release on that path. Full rollback is not claimed there.
- Rdma.Connect: likewise leaves its handles live when a wait throws, as the code does.
- Lifecycle.AcceptRollback: the id of the connection request (rdma.cpp:88) belongs to the provider and is never in the live set, so "nothing kept" speaks of the PD, CQ and QP only. No failure path of `accept` (rdma.cpp:90-124), nor a throwing ESTABLISHED wait (rdma.cpp:128), rejects that request or destroys its id, so in the code that id leaks on those paths; the model does not track this.
- Rdma.Server.Moved: the new server starts uninitialised and owning no handle before the swaps. The move constructor (rdma.cpp:55-60) has no member initialisers, so this holds only if the class declaration gives `is_inited_`, `evt_ch_` and `listen_id_` default member initialisers. That declaration is not part of this model; without such initialisers the moved-from server would receive indeterminate values.
- Cache.AsPtrAsWritten: `int` is taken to be 32 bits wide and `std::uintptr_t` 64 bits wide, as on the platforms the library targets.
- Dropped events stay unacknowledged, as the code leaves them; the model does not treat them as consumed and acknowledged.

## Findings

| source | as written | input that shows it | evidently intended | confidence | as-written member | corrected member |
|---|---|---|---|---|---|---|
| manualmira/src/rdma.cpp:198-216 | when `rdma_resolve_route` or `rdma_connect` fails, CQ, PD, id, channel and addrinfo are released but `rdma_destroy_qp` is never called | address resolves (ADDR_RESOLVED delivered with status 0), then `rdma_resolve_route` fails | destroy the queue pair before the CQ, as `server::accept` does at line 119, so that nothing stays live | high, not executed | Lifecycle.ConnectLeaksQp | Lifecycle.ConnectFixedRollback |
| manualmira/include/manualmira/cache.h:76 | `e.offset + size > LineSize` is computed in `std::size_t` and wraps modulo 2^64 | `size` = 2^64 - 1 with offset 1: the sum wraps to 0 and the access is let through | reject any access with offset + size > LineSize, for example by testing `size > LineSize - e.offset` instead | high, not executed | Cache.GetSizeWrapsAround | Cache.SetAssociative.Get |
| manualmira/include/manualmira/cache.h:59 | as_ptr shifts the `tag` and `index` bit-fields in their promoted types: `int` for widths up to 31, `unsigned int` for width 32 | `entry<65536, 65536>` (IndexWidth = OffsetWidth = 16, TagWidth = 32) and address 2^32: from_ptr gives tag 1, and `1u << 16 << 16` is 0, so as_ptr returns 0 | convert each field to `std::uintptr_t` before shifting, so that as_ptr inverts from_ptr for every geometry | high, not executed | Cache.AsPtrAsWrittenDropsTag | Cache.AsPtrFromPtr |
