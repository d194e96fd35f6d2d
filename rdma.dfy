/** The connection lifecycle of src/rdma.cpp: the listening `server` with
    its all-or-nothing constructor, swap-based moves and guarded teardown,
    `server::accept`, and the client-side `connect`. Each native call goes
    through the tracker `Verbs.Native`; `faults` names the native calls that
    fail (each occurs at most once per operation), and `ackFails` the event
    types whose acknowledgement fails. */
module Rdma {
  import opened Outcomes
  import opened CmEvents
  import opened Verbs
  import opened Await

  /** What `server::accept` returns (`server_connection`): the server's
      channel, the provider's id for the connection, and the protection
      domain and completion queue created for it. The queue pair is not a
      member: it is reached through the id it was created on. */
  datatype ServerConnection = ServerConnection(
    evtCh: Handle, id: Handle, pd: Handle, cq: Handle)

  /** What `connect` returns (`client_connection`): channel, id, protection
      domain, completion queue and address information; the queue pair,
      again, only through the id. */
  datatype ClientConnection = ClientConnection(
    evtCh: Handle, id: Handle, pd: Handle, cq: Handle, addrInfo: Handle)

  /** What a step-by-step acquisition does, as a function of which calls
      fail and what its channel delivers: its result, the history it leaves
      on the tracker, the handles it leaves live, the events it retrieves,
      and what its channel has still to deliver afterwards. */
  datatype Run<T> = Run(result: Outcome<T>, trace: Log, kept: set<Handle>,
                        consumed: seq<CmEvent>, left: seq<Delivery>)

  /** A failed or blocked wait, as the failure of the operation waiting. */
  function Lift<A, B>(o: Outcome<A>): (r: Outcome<B>)
    requires !o.Done?
    ensures !r.Done? && (r.Failed? <==> o.Failed?) && (r.Failed? ==> r.err == o.err)
  {
    if o.Failed? then Failed(o.err) else Stuck
  }

  /** Retrieved events appended in two rounds are appended once. */
  lemma AppendTwice(a: seq<CmEvent>, b: seq<CmEvent>, c: seq<CmEvent>)
    ensures a + b + c == a + (b + c)
  {
  }

  /** Handles `s`, made on top of `base` and then given up, leave `base`
      and whatever `k` the later steps keep; `k` stays clear of `base`. */
  lemma HandOver(base: set<Handle>, s: set<Handle>, k: set<Handle>)
    requires base !! s && (base + s) !! (k - s)
    ensures base + s - s + k == base + k && base !! k
  {
  }

  /** A channel `ch` new to `m`, whose deliveries are later replaced or
      which is later closed. */
  lemma ChannelOver(m: map<Handle, seq<Delivery>>, ch: Handle, a: seq<Delivery>, b: seq<Delivery>)
    requires ch !in m
    ensures m[ch := a][ch := b] == m[ch := b] && m[ch := a] - {ch} == m
  {
  }

  /** A channel whose deliveries are replaced and then replaced again or
      closed. */
  lemma ChannelAgain(m: map<Handle, seq<Delivery>>, ch: Handle, a: seq<Delivery>, b: seq<Delivery>)
    ensures m[ch := a][ch := b] == m[ch := b] && m[ch := a] - {ch} == m - {ch}
  {
  }

  /** Three handles `pd`, `cq` and `qp` made on top of `base`, when the
      later steps give up those three and `ai`, `ch` and `id` and keep `k`
      out of the six. */
  lemma FreshSwap(base: set<Handle>, ai: Handle, ch: Handle, id: Handle,
                  pd: Handle, cq: Handle, qp: Handle, k: set<Handle>)
    requires pd !in base && cq !in base && qp !in base && k <= {ai, ch, id, pd, cq, qp}
    ensures base + {pd, cq, qp} - {ai, ch, id, pd, cq, qp} + k == base - {ai, ch, id} + k
    ensures base !! (k - {ai, ch, id})
  {
  }

  /** The protection domain, completion queue and queue pair allocated one
      after the other from allocation counter `n`. */
  function Pd(n: nat): Handle { Handle(ProtectionDomain, n) }
  function Cq(n: nat): Handle { Handle(CompletionQueue, n + 1) }
  function Qp(n: nat): Handle { Handle(QueuePair, n + 2) }

  /** Which of `ibv_alloc_pd`, `ibv_create_cq` and `rdma_create_qp`, tried in
      that order, fails first. */
  function ProvisionError(faults: set<Error>): (e: Option<Error>)
    ensures e.Some? <==> PdAlloc in faults || CqCreate in faults || QpCreate in faults
    ensures e.Some? ==> e.value in faults
  {
    if PdAlloc in faults then Some(PdAlloc)
    else if CqCreate in faults then Some(CqCreate)
    else if QpCreate in faults then Some(QpCreate)
    else None
  }

  /** The history `l` followed by that sequence: a failed step releases
      what the earlier steps made, latest first. */
  function ProvisionLog(l: Log, n: nat, faults: set<Error>): Log
  {
    if PdAlloc in faults then
      Then(l, MakeFailed(ProtectionDomain))
    else if CqCreate in faults then
      Then(Then(Then(l, Made(Pd(n))), MakeFailed(CompletionQueue)),
           Released(Pd(n)))
    else if QpCreate in faults then
      Then(Then(Then(Then(Then(l, Made(Pd(n))), Made(Cq(n))), MakeFailed(QueuePair)),
                Released(Cq(n))),
           Released(Pd(n)))
    else
      Then(Then(Then(l, Made(Pd(n))), Made(Cq(n))), Made(Qp(n)))
  }

  /** `server::accept()` on channel `ch`, which will deliver `q`, starting
      from history `l` and allocation counter `n`. The connection request is
      awaited first and is not acknowledged by the wait; `AdmitRun` says
      what follows. */
  function AcceptRun(l: Log, n: nat, faults: set<Error>, ackFails: set<EventType>,
                     q: seq<Delivery>, ch: Handle): Run<ServerConnection>
  {
    var w := WaitResult(q, ConnectRequest);
    var got, q1 := Consumed(q, ConnectRequest), Remaining(q, ConnectRequest);
    if !w.Done? then Run(Lift(w), l, {}, got, q1)
    else
      var admitted := AdmitRun(l, n, faults, ackFails, q1, ch, Handle(ProviderId, w.value.id));
      admitted.(consumed := got + admitted.consumed)
  }

  /** What `server::accept()` does once the request for connection `conn`
      has arrived and the channel has `q` left to deliver: the PD, CQ and QP
      are created and `rdma_accept` is called. When one of these fails, what
      was created is released, latest first, and the request is then
      acknowledged; on success the request is acknowledged before the wait
      for ESTABLISHED. A failed acknowledgement of the request is ignored.
      When the ESTABLISHED wait throws, the PD, CQ and QP stay live. */
  function AdmitRun(l: Log, n: nat, faults: set<Error>, ackFails: set<EventType>,
                    q: seq<Delivery>, ch: Handle, conn: Handle): Run<ServerConnection>
  {
    var ackRequest := Acknowledged(ConnectRequest, ConnectRequest !in ackFails);
    var provisioned := ProvisionLog(l, n, faults);
    var p := ProvisionError(faults);
    if p.Some? then Run(Failed(p.value), Then(provisioned, ackRequest), {}, [], q)
    else if AcceptRequest in faults then
      Run(Failed(AcceptRequest),
          Then(Then(Then(Then(Then(provisioned, Asked(AcceptConn, conn, false)),
                              Released(Qp(n))),
                         Released(Cq(n))),
                    Released(Pd(n))),
               ackRequest),
          {}, [], q)
    else
      var w := AckedWait(q, Established, ackFails);
      Run(if w.Done? then Done(ServerConnection(ch, conn, Pd(n), Cq(n))) else Lift(w),
          AckLog(Then(Then(provisioned, Asked(AcceptConn, conn, true)), ackRequest),
                 q, Established, ackFails),
          {Pd(n), Cq(n), Qp(n)},
          Consumed(q, Established), Remaining(q, Established))
  }

  /** The second half of `server::accept()`: what `AdmitRun` says, for the
      retrieved, unacknowledged request event `serial` on channel `ch`. */
  method Admit(v: Native, ch: Handle, conn: Handle, serial: nat,
               faults: set<Error>, ackFails: set<EventType>)
      returns (r: Outcome<ServerConnection>)
    requires v.Valid() && ch in v.pending
    requires serial in v.unacked && serial < |v.received|
    requires v.received[serial].event == ConnectRequest
    modifies v
    ensures v.Valid()
    ensures var run := AdmitRun(old(v.marks), old(v.next), faults, ackFails, old(v.pending[ch]), ch, conn);
      r == run.result && v.marks == run.trace &&
      v.live == old(v.live) + run.kept && old(v.live) !! run.kept &&
      v.received == old(v.received) + run.consumed &&
      v.pending == old(v.pending)[ch := run.left]
  {
    var made := ProvisionQueuePair(v, faults);
    if made.Failed? {
      var ignored := v.AckCmEvent(serial, ConnectRequest in ackFails);
      return Failed(made.err);
    }
    var (pd, cq, qp) := made.value;
    var accepted := v.Request(AcceptConn, conn, AcceptRequest in faults);
    if !accepted {
      v.Release(qp);
      v.Release(cq);
      v.Release(pd);
      var ignored := v.AckCmEvent(serial, ConnectRequest in ackFails);
      return Failed(AcceptRequest);
    }
    var ignored := v.AckCmEvent(serial, ConnectRequest in ackFails);
    var established := AwaitAckCmEvent(v, ch, Established, ackFails);
    if !established.Done? {
      return Lift(established);
    }
    return Done(ServerConnection(ch, conn, pd, cq));
  }

  /** The handles `connect` allocates from allocation counter `n`, in
      order: address information, channel and id; PD, CQ and QP follow. */
  function ClientAddrInfo(n: nat): Handle { Handle(AddrInfoList, n) }
  function ClientChannel(n: nat): Handle { Handle(EventChannel, n + 1) }
  function ClientId(n: nat): Handle { Handle(CmId, n + 2) }

  /** Which of `rdma_getaddrinfo`, `rdma_create_event_channel`,
      `rdma_create_id` and `rdma_resolve_addr`, tried in that order, fails
      first. */
  function OpenClientError(faults: set<Error>): (e: Option<Error>)
    ensures e.Some? <==> AddrInfo in faults || ChannelCreation in faults ||
                         IdCreation in faults || Error.ResolveAddr in faults
    ensures e.Some? ==> e.value in faults
  {
    if AddrInfo in faults then Some(AddrInfo)
    else if ChannelCreation in faults then Some(ChannelCreation)
    else if IdCreation in faults then Some(IdCreation)
    else if Error.ResolveAddr in faults then Some(Error.ResolveAddr)
    else None
  }

  /** The history `l` followed by those four steps: a failed step releases
      what the earlier steps made, latest first. */
  function OpenClientLog(l: Log, n: nat, faults: set<Error>): Log
  {
    var ai, ch, id := ClientAddrInfo(n), ClientChannel(n), ClientId(n);
    if AddrInfo in faults then
      Then(l, MakeFailed(AddrInfoList))
    else if ChannelCreation in faults then
      Then(Then(Then(l, Made(ai)), MakeFailed(EventChannel)), Released(ai))
    else if IdCreation in faults then
      Then(Then(Then(Then(Then(l, Made(ai)), Made(ch)), MakeFailed(CmId)),
                Released(ch)),
           Released(ai))
    else if Error.ResolveAddr in faults then
      CloseClientLog(Then(Then(Then(Then(l, Made(ai)), Made(ch)), Made(id)),
                          Asked(Op.ResolveAddr, id, false)),
                     ai, ch, id)
    else
      Then(Then(Then(Then(l, Made(ai)), Made(ch)), Made(id)), Asked(Op.ResolveAddr, id, true))
  }

  /** The history `l` followed by the release of the id, the channel and the
      address information, in that order. */
  function CloseClientLog(l: Log, ai: Handle, ch: Handle, id: Handle): Log
  {
    Then(Then(Then(l, Released(id)), Released(ch)), Released(ai))
  }

  /** The history `l` followed by the releases of a failed route resolution
      or `rdma_connect`: the queue pair `qp` only when `destroysQp`, then the
      CQ, the PD, and what `CloseClientLog` releases. */
  function TeardownLog(l: Log, ai: Handle, ch: Handle, id: Handle, pd: Handle, cq: Handle, qp: Handle,
                       destroysQp: bool): Log
  {
    var start := if destroysQp then Then(l, Released(qp)) else l;
    CloseClientLog(Then(Then(start, Released(cq)), Released(pd)), ai, ch, id)
  }

  /** `connect(addr, port)` whose new channel will deliver `q`, starting
      from history `l` and allocation counter `n`. Address information,
      channel and id are obtained and the address resolved, each failure
      releasing what came before, latest first; `ResolvedRun` says the
      rest. */
  function ConnectRun(l: Log, n: nat, faults: set<Error>, ackFails: set<EventType>,
                      q: seq<Delivery>, destroysQp: bool): Run<ClientConnection>
  {
    var e := OpenClientError(faults);
    if e.Some? then Run(Failed(e.value), OpenClientLog(l, n, faults), {}, [], [])
    else ResolvedRun(OpenClientLog(l, n, faults), n + 3, faults, ackFails, q,
                     ClientAddrInfo(n), ClientChannel(n), ClientId(n), destroysQp)
  }

  /** `connect` once `rdma_resolve_addr` has been issued for the address
      information `ai`, channel `ch` (with `q` still to deliver) and id
      `id`, with allocation counter `m`: the wait for ADDR_RESOLVED, then
      what `LinkRun` says. A wait that throws leaves the three handles
      live. */
  function ResolvedRun(l: Log, m: nat, faults: set<Error>, ackFails: set<EventType>,
                       q: seq<Delivery>, ai: Handle, ch: Handle, id: Handle,
                       destroysQp: bool): Run<ClientConnection>
  {
    var addressed := AckLog(l, q, AddrResolved, ackFails);
    var w := AckedWait(q, AddrResolved, ackFails);
    var got, q1 := Consumed(q, AddrResolved), Remaining(q, AddrResolved);
    if !w.Done? then Run(Lift(w), addressed, {ai, ch, id}, got, q1)
    else
      var linked := LinkRun(addressed, m, faults, ackFails, q1, ai, ch, id, destroysQp);
      linked.(consumed := got + linked.consumed)
  }

  /** What `connect` does once the address is resolved: PD, CQ and QP from
      allocation counter `m`, whose failures also release the id, channel
      and address information; then what `RouteRun` says. */
  function LinkRun(l: Log, m: nat, faults: set<Error>, ackFails: set<EventType>,
                   q: seq<Delivery>, ai: Handle, ch: Handle, id: Handle,
                   destroysQp: bool): Run<ClientConnection>
  {
    var provisioned := ProvisionLog(l, m, faults);
    var p := ProvisionError(faults);
    if p.Some? then Run(Failed(p.value), CloseClientLog(provisioned, ai, ch, id), {}, [], q)
    else RouteRun(provisioned, faults, ackFails, q, ai, ch, id, Pd(m), Cq(m), Qp(m), destroysQp)
  }

  /** `rdma_resolve_route`, with all six handles live. On failure the CQ,
      PD, id, channel and address information are released, and the queue
      pair first only when `destroysQp` holds: the code as written does not
      release it. On success `RoutedRun` says the rest. */
  function RouteRun(l: Log, faults: set<Error>, ackFails: set<EventType>, q: seq<Delivery>,
                    ai: Handle, ch: Handle, id: Handle, pd: Handle, cq: Handle, qp: Handle,
                    destroysQp: bool): Run<ClientConnection>
  {
    if Error.ResolveRoute in faults then
      Run(Failed(Error.ResolveRoute),
          TeardownLog(Then(l, Asked(Op.ResolveRoute, id, false)), ai, ch, id, pd, cq, qp, destroysQp),
          if destroysQp then {} else {qp}, [], q)
    else
      RoutedRun(Then(l, Asked(Op.ResolveRoute, id, true)), faults, ackFails, q,
                ai, ch, id, pd, cq, qp, destroysQp)
  }

  /** The wait for ROUTE_RESOLVED, then what `DialRun` says. A wait that
      throws leaves all six handles live. */
  function RoutedRun(l: Log, faults: set<Error>, ackFails: set<EventType>, q: seq<Delivery>,
                     ai: Handle, ch: Handle, id: Handle, pd: Handle, cq: Handle, qp: Handle,
                     destroysQp: bool): Run<ClientConnection>
  {
    var routed := AckLog(l, q, RouteResolved, ackFails);
    var w := AckedWait(q, RouteResolved, ackFails);
    var got, q1 := Consumed(q, RouteResolved), Remaining(q, RouteResolved);
    if !w.Done? then Run(Lift(w), routed, {ai, ch, id, pd, cq, qp}, got, q1)
    else
      var dialed := DialRun(routed, faults, ackFails, q1, ai, ch, id, pd, cq, qp, destroysQp);
      dialed.(consumed := got + dialed.consumed)
  }

  /** The last two steps of `connect`: `rdma_connect`, whose failure tears
      down as in `RouteRun`, and the wait for ESTABLISHED; on success the
      connection owns all six handles. */
  function DialRun(l: Log, faults: set<Error>, ackFails: set<EventType>, q: seq<Delivery>,
                   ai: Handle, ch: Handle, id: Handle, pd: Handle, cq: Handle, qp: Handle,
                   destroysQp: bool): Run<ClientConnection>
  {
    if ConnectRemote in faults then
      Run(Failed(ConnectRemote),
          TeardownLog(Then(l, Asked(ConnectConn, id, false)), ai, ch, id, pd, cq, qp, destroysQp),
          if destroysQp then {} else {qp}, [], q)
    else
      var w := AckedWait(q, Established, ackFails);
      Run(if w.Done? then Done(ClientConnection(ch, id, pd, cq, ai)) else Lift(w),
          AckLog(Then(l, Asked(ConnectConn, id, true)), q, Established, ackFails),
          {ai, ch, id, pd, cq, qp}, Consumed(q, Established), Remaining(q, Established))
  }

  /** Route resolution and what follows keep nothing but the six handles
      they are given. */
  lemma RouteRunKeeps(l: Log, faults: set<Error>, ackFails: set<EventType>, q: seq<Delivery>,
                      ai: Handle, ch: Handle, id: Handle, pd: Handle, cq: Handle, qp: Handle,
                      destroysQp: bool)
    ensures RouteRun(l, faults, ackFails, q, ai, ch, id, pd, cq, qp, destroysQp).kept <=
            {ai, ch, id, pd, cq, qp}
  {
  }

  /** The PD, CQ and QP sequence that `server::accept` and `connect` share:
      each creation that fails releases the earlier ones, latest first, and
      reports its error; on success all three are live. */
  method ProvisionQueuePair(v: Native, faults: set<Error>) returns (r: Outcome<(Handle, Handle, Handle)>)
    requires v.Valid()
    modifies v
    ensures v.Valid()
    ensures var n := old(v.next);
      r == (if ProvisionError(faults).Some? then Failed(ProvisionError(faults).value)
            else Done((Pd(n), Cq(n), Qp(n))))
    ensures v.marks == ProvisionLog(old(v.marks), old(v.next), faults)
    ensures var n := old(v.next);
      v.live == old(v.live) + (if r.Done? then {Pd(n), Cq(n), Qp(n)} else {})
    ensures var n := old(v.next);
      r.Done? ==> Pd(n) !in old(v.live) && Cq(n) !in old(v.live) && Qp(n) !in old(v.live)
    ensures v.next >= old(v.next)
    ensures v.pending == old(v.pending) && v.received == old(v.received) && v.unacked == old(v.unacked)
  {
    var pd := v.Allocate(ProtectionDomain, PdAlloc in faults);
    if pd.None? {
      return Failed(PdAlloc);
    }
    var cq := v.Allocate(CompletionQueue, CqCreate in faults);
    if cq.None? {
      v.Release(pd.value);
      return Failed(CqCreate);
    }
    var qp := v.Allocate(QueuePair, QpCreate in faults);
    if qp.None? {
      v.Release(cq.value);
      v.Release(pd.value);
      return Failed(QpCreate);
    }
    return Done((pd.value, cq.value, qp.value));
  }

  /** The first four steps of `connect`: what `OpenClientLog` says, and on
      success the three new handles, the channel delivering `incoming`. */
  method OpenClient(v: Native, faults: set<Error>, incoming: seq<Delivery>)
      returns (r: Outcome<(Handle, Handle, Handle)>)
    requires v.Valid()
    modifies v
    ensures v.Valid()
    ensures var n := old(v.next);
      r == (if OpenClientError(faults).Some? then Failed(OpenClientError(faults).value)
            else Done((ClientAddrInfo(n), ClientChannel(n), ClientId(n))))
    ensures v.marks == OpenClientLog(old(v.marks), old(v.next), faults)
    ensures var n := old(v.next);
      v.live == old(v.live) +
                (if r.Done? then {ClientAddrInfo(n), ClientChannel(n), ClientId(n)} else {})
    ensures var n := old(v.next);
      r.Done? ==> ClientAddrInfo(n) !in old(v.live) && ClientChannel(n) !in old(v.live) &&
                  ClientId(n) !in old(v.live) && v.next == n + 3 &&
                  v.pending == old(v.pending)[ClientChannel(n) := incoming]
    ensures r.Failed? ==> v.pending == old(v.pending)
    ensures v.received == old(v.received) && v.unacked == old(v.unacked)
  {
    var ai := v.Allocate(AddrInfoList, AddrInfo in faults);
    if ai.None? {
      return Failed(AddrInfo);
    }
    var ch := v.CreateEventChannel(ChannelCreation in faults, incoming);
    if ch.None? {
      v.Release(ai.value);
      return Failed(ChannelCreation);
    }
    var id := v.Allocate(CmId, IdCreation in faults);
    if id.None? {
      v.Release(ch.value);
      v.Release(ai.value);
      return Failed(IdCreation);
    }
    var resolved := v.Request(Op.ResolveAddr, id.value, Error.ResolveAddr in faults);
    if !resolved {
      CloseClient(v, ai.value, ch.value, id.value);
      return Failed(Error.ResolveAddr);
    }
    return Done((ai.value, ch.value, id.value));
  }

  /** The releases `CloseClientLog` records, of three live handles. */
  method CloseClient(v: Native, ai: Handle, ch: Handle, id: Handle)
    requires v.Valid() && ai in v.live && ch in v.live && id in v.live
    requires ai.kind == AddrInfoList && ch.kind == EventChannel && id.kind == CmId
    modifies v
    ensures v.Valid()
    ensures v.marks == CloseClientLog(old(v.marks), ai, ch, id)
    ensures v.live == old(v.live) - {ai, ch, id} && v.pending == old(v.pending) - {ch}
    ensures v.received == old(v.received) && v.unacked == old(v.unacked)
  {
    v.Release(id);
    v.Release(ch);
    v.Release(ai);
  }

  /** The releases `TeardownLog` records, of six live handles. */
  method Teardown(v: Native, ai: Handle, ch: Handle, id: Handle, pd: Handle, cq: Handle, qp: Handle,
                  destroysQp: bool)
    requires v.Valid() && ai in v.live && ch in v.live && id in v.live
    requires pd in v.live && cq in v.live && qp in v.live
    requires ai.kind == AddrInfoList && ch.kind == EventChannel && id.kind == CmId
    requires pd.kind == ProtectionDomain && cq.kind == CompletionQueue && qp.kind == QueuePair
    modifies v
    ensures v.Valid()
    ensures v.marks == TeardownLog(old(v.marks), ai, ch, id, pd, cq, qp, destroysQp)
    ensures v.live == old(v.live) - {ai, ch, id, pd, cq, qp} + (if destroysQp then {} else {qp})
    ensures v.pending == old(v.pending) - {ch}
    ensures v.received == old(v.received) && v.unacked == old(v.unacked)
  {
    if destroysQp {
      v.Release(qp);
    }
    v.Release(cq);
    v.Release(pd);
    CloseClient(v, ai, ch, id);
  }

  /** The wait for ADDR_RESOLVED and the rest of `connect`: what
      `ResolvedRun` says. */
  method Resolved(v: Native, ai: Handle, ch: Handle, id: Handle, faults: set<Error>,
                  ackFails: set<EventType>, destroysQp: bool)
      returns (r: Outcome<ClientConnection>)
    requires v.Valid() && ch in v.pending
    requires ai in v.live && ch in v.live && id in v.live
    requires ai.kind == AddrInfoList && ch.kind == EventChannel && id.kind == CmId
    modifies v
    ensures v.Valid()
    ensures var run := ResolvedRun(old(v.marks), old(v.next), faults, ackFails, old(v.pending[ch]),
                                   ai, ch, id, destroysQp);
      r == run.result && v.marks == run.trace &&
      v.live == old(v.live) - {ai, ch, id} + run.kept && old(v.live) !! (run.kept - {ai, ch, id}) &&
      v.received == old(v.received) + run.consumed &&
      v.pending == if ch in run.kept then old(v.pending)[ch := run.left] else old(v.pending) - {ch}
  {
    var addressed := AwaitAckCmEvent(v, ch, AddrResolved, ackFails);
    if !addressed.Done? {
      return Lift(addressed);
    }
    ghost var linked := LinkRun(v.marks, v.next, faults, ackFails, v.pending[ch], ai, ch, id, destroysQp);
    r := Link(v, ai, ch, id, faults, ackFails, destroysQp);
    AppendTwice(old(v.received), Consumed(old(v.pending[ch]), AddrResolved), linked.consumed);
    ChannelAgain(old(v.pending), ch, Remaining(old(v.pending[ch]), AddrResolved), linked.left);
  }

  /** PD, CQ and QP, then route resolution and what follows: what
      `LinkRun` says. */
  method Link(v: Native, ai: Handle, ch: Handle, id: Handle, faults: set<Error>,
              ackFails: set<EventType>, destroysQp: bool)
      returns (r: Outcome<ClientConnection>)
    requires v.Valid() && ch in v.pending
    requires ai in v.live && ch in v.live && id in v.live
    requires ai.kind == AddrInfoList && ch.kind == EventChannel && id.kind == CmId
    modifies v
    ensures v.Valid()
    ensures var run := LinkRun(old(v.marks), old(v.next), faults, ackFails, old(v.pending[ch]),
                               ai, ch, id, destroysQp);
      r == run.result && v.marks == run.trace &&
      v.live == old(v.live) - {ai, ch, id} + run.kept && old(v.live) !! (run.kept - {ai, ch, id}) &&
      v.received == old(v.received) + run.consumed &&
      v.pending == if ch in run.kept then old(v.pending)[ch := run.left] else old(v.pending) - {ch}
  {
    var made := ProvisionQueuePair(v, faults);
    if made.Failed? {
      CloseClient(v, ai, ch, id);
      return Failed(made.err);
    }
    var (pd, cq, qp) := made.value;
    ghost var routed := RouteRun(v.marks, faults, ackFails, v.pending[ch], ai, ch, id, pd, cq, qp, destroysQp);
    RouteRunKeeps(v.marks, faults, ackFails, v.pending[ch], ai, ch, id, pd, cq, qp, destroysQp);
    r := Route(v, ai, ch, id, pd, cq, qp, faults, ackFails, destroysQp);
    FreshSwap(old(v.live), ai, ch, id, pd, cq, qp, routed.kept);
  }

  /** `rdma_resolve_route` and what follows: what `RouteRun` says. */
  method Route(v: Native, ai: Handle, ch: Handle, id: Handle, pd: Handle, cq: Handle, qp: Handle,
               faults: set<Error>, ackFails: set<EventType>, destroysQp: bool)
      returns (r: Outcome<ClientConnection>)
    requires v.Valid() && ch in v.pending
    requires ai in v.live && ch in v.live && id in v.live
    requires pd in v.live && cq in v.live && qp in v.live
    requires ai.kind == AddrInfoList && ch.kind == EventChannel && id.kind == CmId
    requires pd.kind == ProtectionDomain && cq.kind == CompletionQueue && qp.kind == QueuePair
    modifies v
    ensures v.Valid()
    ensures var run := RouteRun(old(v.marks), faults, ackFails, old(v.pending[ch]),
                                ai, ch, id, pd, cq, qp, destroysQp);
      r == run.result && v.marks == run.trace &&
      v.live == old(v.live) - {ai, ch, id, pd, cq, qp} + run.kept &&
      v.received == old(v.received) + run.consumed &&
      v.pending == if ch in run.kept then old(v.pending)[ch := run.left] else old(v.pending) - {ch}
  {
    var routeRequested := v.Request(Op.ResolveRoute, id, Error.ResolveRoute in faults);
    if !routeRequested {
      Teardown(v, ai, ch, id, pd, cq, qp, destroysQp);
      return Failed(Error.ResolveRoute);
    }
    r := Routed(v, ai, ch, id, pd, cq, qp, faults, ackFails, destroysQp);
  }

  /** The wait for ROUTE_RESOLVED and what follows: what `RoutedRun`
      says. */
  method Routed(v: Native, ai: Handle, ch: Handle, id: Handle, pd: Handle, cq: Handle, qp: Handle,
                faults: set<Error>, ackFails: set<EventType>, destroysQp: bool)
      returns (r: Outcome<ClientConnection>)
    requires v.Valid() && ch in v.pending
    requires ai in v.live && ch in v.live && id in v.live
    requires pd in v.live && cq in v.live && qp in v.live
    requires ai.kind == AddrInfoList && ch.kind == EventChannel && id.kind == CmId
    requires pd.kind == ProtectionDomain && cq.kind == CompletionQueue && qp.kind == QueuePair
    modifies v
    ensures v.Valid()
    ensures var run := RoutedRun(old(v.marks), faults, ackFails, old(v.pending[ch]),
                                 ai, ch, id, pd, cq, qp, destroysQp);
      r == run.result && v.marks == run.trace &&
      v.live == old(v.live) - {ai, ch, id, pd, cq, qp} + run.kept &&
      v.received == old(v.received) + run.consumed &&
      v.pending == if ch in run.kept then old(v.pending)[ch := run.left] else old(v.pending) - {ch}
  {
    var routed := AwaitAckCmEvent(v, ch, RouteResolved, ackFails);
    if !routed.Done? {
      return Lift(routed);
    }
    ghost var dialed := DialRun(v.marks, faults, ackFails, v.pending[ch], ai, ch, id, pd, cq, qp, destroysQp);
    r := Dial(v, ai, ch, id, pd, cq, qp, faults, ackFails, destroysQp);
    AppendTwice(old(v.received), Consumed(old(v.pending[ch]), RouteResolved), dialed.consumed);
    ChannelAgain(old(v.pending), ch, Remaining(old(v.pending[ch]), RouteResolved), dialed.left);
  }

  /** `rdma_connect` and the wait for ESTABLISHED: what `DialRun` says. */
  method Dial(v: Native, ai: Handle, ch: Handle, id: Handle, pd: Handle, cq: Handle, qp: Handle,
              faults: set<Error>, ackFails: set<EventType>, destroysQp: bool)
      returns (r: Outcome<ClientConnection>)
    requires v.Valid() && ch in v.pending
    requires ai in v.live && ch in v.live && id in v.live
    requires pd in v.live && cq in v.live && qp in v.live
    requires ai.kind == AddrInfoList && ch.kind == EventChannel && id.kind == CmId
    requires pd.kind == ProtectionDomain && cq.kind == CompletionQueue && qp.kind == QueuePair
    modifies v
    ensures v.Valid()
    ensures var run := DialRun(old(v.marks), faults, ackFails, old(v.pending[ch]),
                               ai, ch, id, pd, cq, qp, destroysQp);
      r == run.result && v.marks == run.trace &&
      v.live == old(v.live) - {ai, ch, id, pd, cq, qp} + run.kept &&
      v.received == old(v.received) + run.consumed &&
      v.pending == if ch in run.kept then old(v.pending)[ch := run.left] else old(v.pending) - {ch}
  {
    var connected := v.Request(ConnectConn, id, ConnectRemote in faults);
    if !connected {
      Teardown(v, ai, ch, id, pd, cq, qp, destroysQp);
      return Failed(ConnectRemote);
    }
    var established := AwaitAckCmEvent(v, ch, Established, ackFails);
    if !established.Done? {
      return Lift(established);
    }
    r := Done(ClientConnection(ch, id, pd, cq, ai));
  }

  /** `connect(addr, port)` as written, its new channel delivering
      `incoming`: what `ConnectRun` says without the release of the queue
      pair. */
  method Connect(v: Native, faults: set<Error>, ackFails: set<EventType>, incoming: seq<Delivery>)
      returns (r: Outcome<ClientConnection>)
    requires v.Valid()
    modifies v
    ensures v.Valid()
    ensures var run := ConnectRun(old(v.marks), old(v.next), faults, ackFails, incoming, false);
      var ch := ClientChannel(old(v.next));
      r == run.result && v.marks == run.trace &&
      v.live == old(v.live) + run.kept && old(v.live) !! run.kept &&
      v.received == old(v.received) + run.consumed &&
      v.pending == if ch in run.kept then old(v.pending)[ch := run.left] else old(v.pending)
  {
    r := Establish(v, faults, ackFails, incoming, false);
  }

  /** `connect` with the queue pair released, before the CQ, when route
      resolution or `rdma_connect` fails, as `server::accept` does. */
  method ConnectFixed(v: Native, faults: set<Error>, ackFails: set<EventType>, incoming: seq<Delivery>)
      returns (r: Outcome<ClientConnection>)
    requires v.Valid()
    modifies v
    ensures v.Valid()
    ensures var run := ConnectRun(old(v.marks), old(v.next), faults, ackFails, incoming, true);
      var ch := ClientChannel(old(v.next));
      r == run.result && v.marks == run.trace &&
      v.live == old(v.live) + run.kept && old(v.live) !! run.kept &&
      v.received == old(v.received) + run.consumed &&
      v.pending == if ch in run.kept then old(v.pending)[ch := run.left] else old(v.pending)
  {
    r := Establish(v, faults, ackFails, incoming, true);
  }

  /** The body both `Connect` and `ConnectFixed` share. */
  method Establish(v: Native, faults: set<Error>, ackFails: set<EventType>, incoming: seq<Delivery>,
                   destroysQp: bool)
      returns (r: Outcome<ClientConnection>)
    requires v.Valid()
    modifies v
    ensures v.Valid()
    ensures r == ConnectRun(old(v.marks), old(v.next), faults, ackFails, incoming, destroysQp).result
    ensures v.marks == ConnectRun(old(v.marks), old(v.next), faults, ackFails, incoming, destroysQp).trace
    ensures v.live == old(v.live) + ConnectRun(old(v.marks), old(v.next), faults, ackFails, incoming, destroysQp).kept
    ensures old(v.live) !! ConnectRun(old(v.marks), old(v.next), faults, ackFails, incoming, destroysQp).kept
    ensures v.received == old(v.received) + ConnectRun(old(v.marks), old(v.next), faults, ackFails, incoming, destroysQp).consumed
    ensures var run := ConnectRun(old(v.marks), old(v.next), faults, ackFails, incoming, destroysQp);
      var ch := ClientChannel(old(v.next));
      v.pending == if ch in run.kept then old(v.pending)[ch := run.left] else old(v.pending)
  {
    var base := OpenClient(v, faults, incoming);
    if base.Failed? {
      return Failed(base.err);
    }
    var (ai, ch, id) := base.value;
    ghost var resolved := ResolvedRun(v.marks, v.next, faults, ackFails, incoming, ai, ch, id, destroysQp);
    r := Resolved(v, ai, ch, id, faults, ackFails, destroysQp);
    HandOver(old(v.live), {ai, ch, id}, resolved.kept);
    ChannelOver(old(v.pending), ch, incoming, resolved.left);
  }

  class Server {
    /** `is_inited_`. */
    var isInited: bool
    /** `evt_ch_`; `None` for a null pointer. */
    var evtCh: Option<Handle>
    /** `listen_id_`. */
    var listenId: Option<Handle>

    ghost predicate Valid()
      reads this
    {
      isInited ==> evtCh.Some? && listenId.Some? &&
                   evtCh.value.kind == EventChannel && listenId.value.kind == CmId
    }

    /** The handles this server destroys when it is destroyed. */
    ghost function Owned(): set<Handle>
      reads this
      requires Valid()
    {
      if isInited then {evtCh.value, listenId.value} else {}
    }

    /** The members at their initial values: not initialised, null
        pointers. */
    constructor Blank()
      ensures Valid() && !isInited && evtCh == None && listenId == None
      ensures Owned() == {}
    {
      isInited := false;
      evtCh := None;
      listenId := None;
    }

    /** A server that owns a bound listening id and its channel. */
    constructor Bound(ch: Handle, id: Handle)
      requires ch.kind == EventChannel && id.kind == CmId
      ensures Valid() && isInited && evtCh == Some(ch) && listenId == Some(id)
      ensures Owned() == {ch, id}
    {
      isInited := true;
      evtCh := Some(ch);
      listenId := Some(id);
    }

    /** `server::server(addr, port)`: create a channel, create the listening
        id on it, bind the id. A failed step destroys what the earlier
        steps created, latest first, and reports its error; only when all
        three succeed is a server, owning exactly the two new handles,
        returned. */
    static method Open(v: Native, faults: set<Error>, incoming: seq<Delivery>)
        returns (r: Outcome<Server>)
      requires v.Valid()
      modifies v
      ensures v.Valid() && v.received == old(v.received) && v.unacked == old(v.unacked)
      ensures var ch, id := Handle(EventChannel, old(v.next)), Handle(CmId, old(v.next) + 1);
        if ChannelCreation in faults then
          r == Failed(ChannelCreation) && v.live == old(v.live) &&
          v.marks == Then(old(v.marks), MakeFailed(EventChannel))
        else if IdCreation in faults then
          r == Failed(IdCreation) && v.live == old(v.live) &&
          v.marks == Then(Then(Then(old(v.marks), Made(ch)), MakeFailed(CmId)), Released(ch))
        else if Bind in faults then
          r == Failed(Bind) && v.live == old(v.live) &&
          v.marks == Then(Then(Then(Then(Then(old(v.marks), Made(ch)), Made(id)),
                                         Asked(BindAddr, id, false)),
                                    Released(id)),
                               Released(ch))
        else
          r.Done? && fresh(r.value) && r.value.Valid() && r.value.isInited &&
          r.value.evtCh == Some(ch) && r.value.listenId == Some(id) &&
          ch !in old(v.live) && id !in old(v.live) &&
          v.live == old(v.live) + r.value.Owned() &&
          v.pending == old(v.pending)[ch := incoming] &&
          v.marks == Then(Then(Then(old(v.marks), Made(ch)), Made(id)), Asked(BindAddr, id, true))
      ensures r.Failed? ==> v.pending == old(v.pending)
    {
      var ch := v.CreateEventChannel(ChannelCreation in faults, incoming);
      if ch.None? {
        return Failed(ChannelCreation);
      }
      var id := v.Allocate(CmId, IdCreation in faults);
      if id.None? {
        v.Release(ch.value);
        return Failed(IdCreation);
      }
      var bound := v.Request(BindAddr, id.value, Bind in faults);
      if !bound {
        v.Release(id.value);
        v.Release(ch.value);
        return Failed(Bind);
      }
      var s := new Server.Bound(ch.value, id.value);
      return Done(s);
    }

    /** `server(server&& other)`: start blank and swap every member with
        `other`, which is left owning nothing. */
    constructor Moved(other: Server)
      requires other.Valid()
      modifies other
      ensures Valid() && other.Valid()
      ensures isInited == old(other.isInited) && evtCh == old(other.evtCh) &&
              listenId == old(other.listenId)
      ensures !other.isInited && other.evtCh == None && other.listenId == None
      ensures Owned() == old(other.Owned()) && other.Owned() == {}
    {
      isInited := false;
      evtCh := None;
      listenId := None;
      new;
      isInited, other.isInited := other.isInited, isInited;
      evtCh, other.evtCh := other.evtCh, evtCh;
      listenId, other.listenId := other.listenId, listenId;
    }

    /** `operator=(server&& other)`: swap every member, so the two servers
        exchange what they own and neither gains nor loses a handle. */
    method MoveAssign(other: Server)
      requires Valid() && other.Valid()
      modifies this, other
      ensures Valid() && other.Valid()
      ensures isInited == old(other.isInited) && evtCh == old(other.evtCh) &&
              listenId == old(other.listenId)
      ensures other.isInited == old(isInited) && other.evtCh == old(evtCh) &&
              other.listenId == old(listenId)
      ensures Owned() == old(other.Owned()) && other.Owned() == old(Owned())
    {
      var inited, ch, id := isInited, evtCh, listenId;
      isInited, evtCh, listenId := other.isInited, other.evtCh, other.listenId;
      other.isInited, other.evtCh, other.listenId := inited, ch, id;
    }

    /** `server::~server()`: nothing unless initialised; otherwise destroy
        the listening id, then the channel, and clear the flag. */
    method Destroy(v: Native)
      requires Valid() && v.Valid() && Owned() <= v.live
      modifies this, v
      ensures Valid() && !isInited && Owned() == {}
      ensures evtCh == old(evtCh) && listenId == old(listenId)
      ensures v.Valid() && v.live == old(v.live) - old(Owned())
      ensures v.marks == if old(isInited)
        then Then(Then(old(v.marks), Released(listenId.value)), Released(evtCh.value))
        else old(v.marks)
      ensures v.pending == if old(isInited) then old(v.pending) - {evtCh.value} else old(v.pending)
      ensures v.received == old(v.received) && v.unacked == old(v.unacked)
    {
      if !isInited {
        return;
      }
      v.Release(listenId.value);
      v.Release(evtCh.value);
      isInited := false;
    }

    /** `server::listen(backlog)`: one `rdma_listen` on the listening id;
        failure is an error. */
    method Listen(v: Native, backlog: int, fails: bool) returns (r: Outcome<()>)
      requires Valid() && isInited && v.Valid()
      modifies v
      ensures v.Valid()
      ensures r == if fails then Failed(Error.Listen) else Done(())
      ensures v.marks == Then(old(v.marks), Asked(Op.Listen, listenId.value, !fails))
      ensures v.live == old(v.live) && v.pending == old(v.pending)
      ensures v.received == old(v.received) && v.unacked == old(v.unacked)
    {
      var ok := v.Request(Op.Listen, listenId.value, fails);
      if !ok {
        return Failed(Error.Listen);
      }
      return Done(());
    }

    /** `server::accept()`: what `AcceptRun` says, on the server's channel. */
    method Accept(v: Native, faults: set<Error>, ackFails: set<EventType>)
        returns (r: Outcome<ServerConnection>)
      requires Valid() && isInited && v.Valid() && evtCh.value in v.pending
      modifies v
      ensures v.Valid()
      ensures var run := AcceptRun(old(v.marks), old(v.next), faults, ackFails,
                                   old(v.pending[evtCh.value]), evtCh.value);
        r == run.result && v.marks == run.trace &&
        v.live == old(v.live) + run.kept && old(v.live) !! run.kept &&
        v.received == old(v.received) + run.consumed &&
        v.pending == old(v.pending)[evtCh.value := run.left]
    {
      var ch := evtCh.value;
      var request, serial := AwaitCmEvent(v, ch, ConnectRequest);
      if !request.Done? {
        return Lift(request);
      }
      r := Admit(v, ch, Handle(ProviderId, request.value.id), serial, faults, ackFails);
    }
  }

  /** A server moved into a new one, and then both destroyed: the new
      server's destructor releases what the original owned, listening id
      first, and the moved-from server's destructor releases nothing, so
      each handle is released exactly once. */
  method MoveThenDestroy(v: Native, s: Server) returns (t: Server)
    requires s.Valid() && v.Valid() && s.Owned() <= v.live
    modifies s, v
    ensures fresh(t) && !t.isInited && !s.isInited
    ensures v.Valid() && v.live == old(v.live) - old(s.Owned())
    ensures Releases(v.marks) == Releases(old(v.marks)) +
      (if old(s.isInited) then [old(s.listenId).value, old(s.evtCh).value] else [])
    ensures v.pending == if old(s.isInited) then old(v.pending) - {old(s.evtCh).value} else old(v.pending)
  {
    t := new Server.Moved(s);
    s.Destroy(v);
    t.Destroy(v);
    Views();
  }
}
