/** What the acquisition chains of src/rdma.cpp promise, stated over the
    histories `Rdma.AcceptRun` and `Rdma.ConnectRun` describe: when each
    succeeds, in which order handles are made and events acknowledged, and
    that a failed native call releases exactly what was made, latest first
    -- except for the queue pair that `connect` as written leaves behind. */
module Lifecycle {
  import opened Outcomes
  import opened CmEvents
  import opened Verbs
  import opened Await
  import opened Rdma

  /** The failure of a native call, as opposed to that of a wait (a failed
      event retrieval or acknowledgement, which throws). */
  predicate NativeFailure(e: Error)
  {
    e != GetEvent && e != AckEvent
  }

  /** From makes `m0` and releases `r0` to makes `m1` and releases `r1`,
      both extended: the handles released are those made, in the reverse
      order. */
  predicate Undoes(m0: seq<Handle>, m1: seq<Handle>, r0: seq<Handle>, r1: seq<Handle>)
  {
    |m0| <= |m1| && |r0| <= |r1| && m1[..|m0|] == m0 && r1[..|r0|] == r0 &&
    r1[|r0|..] == Reversed(m1[|m0|..])
  }

  /** From `before` to `after`, the handles released are those made, in the
      reverse order, and nothing released was made earlier. */
  predicate RolledBack(before: Log, after: Log)
  {
    Undoes(Makes(before), Makes(after), Releases(before), Releases(after))
  }

  lemma UndoesBy(m0: seq<Handle>, made: seq<Handle>, r0: seq<Handle>, undone: seq<Handle>)
    requires undone == Reversed(made)
    ensures Undoes(m0, m0 + made, r0, r0 + undone)
  {
    assert (m0 + made)[..|m0|] == m0 && (m0 + made)[|m0|..] == made;
    assert (r0 + undone)[..|r0|] == r0 && (r0 + undone)[|r0|..] == undone;
  }

  /** Two rounds of making, the second undone before the first, are undone
      as one. */
  lemma UndoesThrough(m0: seq<Handle>, made1: seq<Handle>, made2: seq<Handle>,
                      r0: seq<Handle>, undone2: seq<Handle>, undone1: seq<Handle>)
    requires undone2 == Reversed(made2) && undone1 == Reversed(made1)
    ensures Undoes(m0, m0 + made1 + made2, r0, r0 + undone2 + undone1)
  {
    ReversedAppend(made1, made2);
    assert m0 + made1 + made2 == m0 + (made1 + made2);
    assert r0 + undone2 + undone1 == r0 + (undone2 + undone1);
    UndoesBy(m0, made1 + made2, r0, undone2 + undone1);
  }

  /** Six handles made and released in the reverse order are undone. */
  lemma UndoesSix(m0: seq<Handle>, r0: seq<Handle>, a: Handle, b: Handle, c: Handle,
                  d: Handle, e: Handle, f: Handle)
    ensures Undoes(m0, m0 + [a, b, c, d, e, f], r0, r0 + [f] + [e, d, c, b, a])
  {
    ReversedThree(a, b, c);
    ReversedThree(d, e, f);
    UndoesThrough(m0, [a, b, c], [d, e, f], r0, [f, e, d], [c, b, a]);
    assert m0 + [a, b, c, d, e, f] == m0 + [a, b, c] + [d, e, f];
    assert r0 + [f] + [e, d, c, b, a] == r0 + [f, e, d] + [c, b, a];
  }

  // server::accept

  /** `server::accept` returns a connection exactly when the request
      arrives, none of the PD, CQ, QP and `rdma_accept` calls fails, and
      ESTABLISHED arrives and is acknowledged. */
  lemma AcceptSucceedsIff(l: Log, n: nat, faults: set<Error>, ackFails: set<EventType>,
                          q: seq<Delivery>, ch: Handle)
    ensures AcceptRun(l, n, faults, ackFails, q, ch).result.Done? <==>
      WaitResult(q, ConnectRequest).Done? &&
      PdAlloc !in faults && CqCreate !in faults && QpCreate !in faults && AcceptRequest !in faults &&
      AckedWait(Remaining(q, ConnectRequest), Established, ackFails).Done?
  {
  }

  /** A successful `server::accept` hands over the provider's id for the
      request and the three new handles, keeps exactly those, and between
      the request and ESTABLISHED makes the PD, the CQ and the QP, accepts,
      and acknowledges the request: allocation lies between the two
      events. */
  lemma AcceptSuccess(l: Log, n: nat, faults: set<Error>, ackFails: set<EventType>,
                      q: seq<Delivery>, ch: Handle)
    requires AcceptRun(l, n, faults, ackFails, q, ch).result.Done?
    ensures var run := AcceptRun(l, n, faults, ackFails, q, ch);
      var c := run.result.value;
      var conn := Handle(ProviderId, WaitResult(q, ConnectRequest).value.id);
      c == ServerConnection(ch, conn, Pd(n), Cq(n)) &&
      run.kept == {c.pd, c.cq, Qp(n)} &&
      Entries(run.trace) == Entries(l) +
        [Made(c.pd), Made(c.cq), Made(Qp(n)), Asked(AcceptConn, conn, true),
         Acknowledged(ConnectRequest, ConnectRequest !in ackFails), Acknowledged(Established, true)] &&
      run.consumed == Consumed(q, ConnectRequest) +
                      Consumed(Remaining(q, ConnectRequest), Established)
  {
    var conn := Handle(ProviderId, WaitResult(q, ConnectRequest).value.id);
    var asked := Then(Then(ProvisionLog(l, n, faults), Asked(AcceptConn, conn, true)),
                      Acknowledged(ConnectRequest, ConnectRequest !in ackFails));
    assert AckLog(asked, Remaining(q, ConnectRequest), Established, ackFails) ==
      Then(asked, Acknowledged(Established, true));
    Views();
  }

  /** A failed PD, CQ or QP step releases what the earlier steps made, in
      the reverse order. */
  lemma ProvisionReversed(n: nat, faults: set<Error>)
    requires ProvisionError(faults).Some?
    ensures ProvisionUndone(n, faults) == Reversed(ProvisionMade(n, faults))
  {
    if !(PdAlloc in faults) && !(CqCreate in faults) {
      assert [Pd(n), Cq(n)][1..] == [Cq(n)];
      assert [Cq(n)][1..] == [];
    }
  }

  /** `server::accept` when the PD, CQ or QP step fails. */
  lemma AdmitProvisionFails(l: Log, n: nat, faults: set<Error>, ackFails: set<EventType>,
                            q: seq<Delivery>, ch: Handle, conn: Handle)
    requires ProvisionError(faults).Some?
    ensures var run := AdmitRun(l, n, faults, ackFails, q, ch, conn);
      run.result == Failed(ProvisionError(faults).value) && run.kept == {} &&
      Makes(run.trace) == Makes(l) + ProvisionMade(n, faults) &&
      Releases(run.trace) == Releases(l) + ProvisionUndone(n, faults) &&
      Acks(run.trace) == Acks(l) + [ConnectRequest]
  {
    ProvisionViews(l, n, faults);
    ViewsThen(ProvisionLog(l, n, faults), Acknowledged(ConnectRequest, ConnectRequest !in ackFails));
  }

  /** `server::accept` when `rdma_accept` fails. */
  lemma AdmitAcceptFails(l: Log, n: nat, faults: set<Error>, ackFails: set<EventType>,
                         q: seq<Delivery>, ch: Handle, conn: Handle)
    requires ProvisionError(faults).None? && AcceptRequest in faults
    ensures var run := AdmitRun(l, n, faults, ackFails, q, ch, conn);
      run.result == Failed(AcceptRequest) && run.kept == {} &&
      Makes(run.trace) == Makes(l) + [Pd(n), Cq(n), Qp(n)] &&
      Releases(run.trace) == Releases(l) + [Qp(n), Cq(n), Pd(n)] &&
      Acks(run.trace) == Acks(l) + [ConnectRequest]
  {
    var p := ProvisionLog(l, n, faults);
    var a := Then(p, Asked(AcceptConn, conn, false));
    var r := Then(Then(Then(a, Released(Qp(n))), Released(Cq(n))), Released(Pd(n)));
    ProvisionViews(l, n, faults);
    ViewsThen(p, Asked(AcceptConn, conn, false));
    ViewsThen(a, Released(Qp(n)));
    ViewsThen(Then(a, Released(Qp(n))), Released(Cq(n)));
    ViewsThen(Then(Then(a, Released(Qp(n))), Released(Cq(n))), Released(Pd(n)));
    ViewsThen(r, Acknowledged(ConnectRequest, ConnectRequest !in ackFails));
  }

  /** When a native call of `server::accept` fails, nothing it made stays
      live, what it made is released latest first, and the request is still
      acknowledged. */
  lemma AcceptRollback(l: Log, n: nat, faults: set<Error>, ackFails: set<EventType>,
                       q: seq<Delivery>, ch: Handle)
    requires AcceptRun(l, n, faults, ackFails, q, ch).result.Failed?
    requires NativeFailure(AcceptRun(l, n, faults, ackFails, q, ch).result.err)
    ensures var run := AcceptRun(l, n, faults, ackFails, q, ch);
      run.kept == {} && RolledBack(l, run.trace) && Acks(run.trace) == Acks(l) + [ConnectRequest]
  {
    var w := WaitResult(q, ConnectRequest);
    var run := AcceptRun(l, n, faults, ackFails, q, ch);
    assert w.Done?;
    var q1, conn := Remaining(q, ConnectRequest), Handle(ProviderId, w.value.id);
    if ProvisionError(faults).Some? {
      AdmitProvisionFails(l, n, faults, ackFails, q1, ch, conn);
      ProvisionReversed(n, faults);
      UndoesBy(Makes(l), ProvisionMade(n, faults), Releases(l), ProvisionUndone(n, faults));
    } else {
      AdmitAcceptFails(l, n, faults, ackFails, q1, ch, conn);
      ReversedThree(Pd(n), Cq(n), Qp(n));
      UndoesBy(Makes(l), [Pd(n), Cq(n), Qp(n)], Releases(l), [Qp(n), Cq(n), Pd(n)]);
    }
  }

  /** When a wait of `server::accept` throws, nothing is released: before
      the request arrives nothing is made, and after it the PD, CQ and QP
      stay live. */
  lemma AcceptThrowKeeps(l: Log, n: nat, faults: set<Error>, ackFails: set<EventType>,
                         q: seq<Delivery>, ch: Handle)
    requires AcceptRun(l, n, faults, ackFails, q, ch).result.Failed?
    requires !NativeFailure(AcceptRun(l, n, faults, ackFails, q, ch).result.err)
    ensures var run := AcceptRun(l, n, faults, ackFails, q, ch);
      Releases(run.trace) == Releases(l) &&
      run.kept == if WaitResult(q, ConnectRequest).Done? then {Pd(n), Cq(n), Qp(n)} else {}
  {
    Views();
  }

  // connect

  /** Views of the histories the rollback chains of `connect` build. */
  lemma CloseClientViews(l: Log, ai: Handle, ch: Handle, id: Handle)
    ensures var t := CloseClientLog(l, ai, ch, id);
      Makes(t) == Makes(l) && Releases(t) == Releases(l) + [id, ch, ai] && Acks(t) == Acks(l)
  {
    ViewsThen(l, Released(id));
    ViewsThen(Then(l, Released(id)), Released(ch));
    ViewsThen(Then(Then(l, Released(id)), Released(ch)), Released(ai));
  }

  lemma TeardownViews(l: Log, ai: Handle, ch: Handle, id: Handle, pd: Handle, cq: Handle, qp: Handle,
                      destroysQp: bool)
    ensures var t := TeardownLog(l, ai, ch, id, pd, cq, qp, destroysQp);
      Makes(t) == Makes(l) && Acks(t) == Acks(l) &&
      Releases(t) == Releases(l) + (if destroysQp then [qp] else []) + [cq, pd, id, ch, ai]
  {
    var start := if destroysQp then Then(l, Released(qp)) else l;
    ViewsThen(l, Released(qp));
    ViewsThen(start, Released(cq));
    ViewsThen(Then(start, Released(cq)), Released(pd));
    CloseClientViews(Then(Then(start, Released(cq)), Released(pd)), ai, ch, id);
  }

  /** The handles the PD, CQ and QP steps make, and those a failure among
      them releases. */
  function ProvisionMade(n: nat, faults: set<Error>): seq<Handle>
  {
    if PdAlloc in faults then [] else if CqCreate in faults then [Pd(n)]
    else if QpCreate in faults then [Pd(n), Cq(n)] else [Pd(n), Cq(n), Qp(n)]
  }

  function ProvisionUndone(n: nat, faults: set<Error>): seq<Handle>
  {
    if PdAlloc in faults then [] else if CqCreate in faults then [Pd(n)]
    else if QpCreate in faults then [Cq(n), Pd(n)] else []
  }

  lemma ProvisionViews(l: Log, n: nat, faults: set<Error>)
    ensures var t := ProvisionLog(l, n, faults);
      Makes(t) == Makes(l) + ProvisionMade(n, faults) && Acks(t) == Acks(l) &&
      Releases(t) == Releases(l) + ProvisionUndone(n, faults)
  {
    var pd, cq := Then(l, Made(Pd(n))), Then(Then(l, Made(Pd(n))), Made(Cq(n)));
    ViewsThen(l, MakeFailed(ProtectionDomain));
    ViewsThen(l, Made(Pd(n)));
    if CqCreate in faults {
      ViewsThen(pd, MakeFailed(CompletionQueue));
      ViewsThen(Then(pd, MakeFailed(CompletionQueue)), Released(Pd(n)));
    }
    ViewsThen(pd, Made(Cq(n)));
    if QpCreate in faults {
      ViewsThen(cq, MakeFailed(QueuePair));
      ViewsThen(Then(cq, MakeFailed(QueuePair)), Released(Cq(n)));
      ViewsThen(Then(Then(cq, MakeFailed(QueuePair)), Released(Cq(n))), Released(Pd(n)));
    }
    ViewsThen(cq, Made(Qp(n)));
  }

  /** The same for the first four steps of `connect`. */
  function OpenMade(n: nat, faults: set<Error>): seq<Handle>
  {
    var ai, ch, id := ClientAddrInfo(n), ClientChannel(n), ClientId(n);
    if AddrInfo in faults then [] else if ChannelCreation in faults then [ai]
    else if IdCreation in faults then [ai, ch] else [ai, ch, id]
  }

  function OpenUndone(n: nat, faults: set<Error>): seq<Handle>
  {
    var ai, ch, id := ClientAddrInfo(n), ClientChannel(n), ClientId(n);
    if AddrInfo in faults then [] else if ChannelCreation in faults then [ai]
    else if IdCreation in faults then [ch, ai]
    else if Error.ResolveAddr in faults then [id, ch, ai] else []
  }

  /** The views of each way the first four steps of `connect` can go. */
  lemma OpenChannelFailsViews(l: Log, n: nat, faults: set<Error>)
    requires AddrInfo !in faults && ChannelCreation in faults
    ensures var t := OpenClientLog(l, n, faults);
      Makes(t) == Makes(l) + OpenMade(n, faults) && Acks(t) == Acks(l) &&
      Releases(t) == Releases(l) + OpenUndone(n, faults)
  {
    var a := Then(l, Made(ClientAddrInfo(n)));
    ViewsThen(l, Made(ClientAddrInfo(n)));
    ViewsThen(a, MakeFailed(EventChannel));
    ViewsThen(Then(a, MakeFailed(EventChannel)), Released(ClientAddrInfo(n)));
  }

  lemma OpenIdFailsViews(l: Log, n: nat, faults: set<Error>)
    requires AddrInfo !in faults && ChannelCreation !in faults && IdCreation in faults
    ensures var t := OpenClientLog(l, n, faults);
      Makes(t) == Makes(l) + OpenMade(n, faults) && Acks(t) == Acks(l) &&
      Releases(t) == Releases(l) + OpenUndone(n, faults)
  {
    var ai, ch := ClientAddrInfo(n), ClientChannel(n);
    var c := Then(Then(l, Made(ai)), Made(ch));
    ViewsThen(l, Made(ai));
    ViewsThen(Then(l, Made(ai)), Made(ch));
    ViewsThen(c, MakeFailed(CmId));
    ViewsThen(Then(c, MakeFailed(CmId)), Released(ch));
    ViewsThen(Then(Then(c, MakeFailed(CmId)), Released(ch)), Released(ai));
  }

  lemma OpenResolveViews(l: Log, n: nat, faults: set<Error>)
    requires AddrInfo !in faults && ChannelCreation !in faults && IdCreation !in faults
    ensures var t := OpenClientLog(l, n, faults);
      Makes(t) == Makes(l) + OpenMade(n, faults) && Acks(t) == Acks(l) &&
      Releases(t) == Releases(l) + OpenUndone(n, faults)
  {
    var ai, ch, id := ClientAddrInfo(n), ClientChannel(n), ClientId(n);
    var i := Then(Then(Then(l, Made(ai)), Made(ch)), Made(id));
    OpenedViews(l, ai, ch, id);
    if Error.ResolveAddr in faults {
      ViewsThen(i, Asked(Op.ResolveAddr, id, false));
      CloseClientViews(Then(i, Asked(Op.ResolveAddr, id, false)), ai, ch, id);
    } else {
      ViewsThen(i, Asked(Op.ResolveAddr, id, true));
    }
  }

  /** Making the address information, the channel and the id. */
  lemma OpenedViews(l: Log, ai: Handle, ch: Handle, id: Handle)
    ensures var i := Then(Then(Then(l, Made(ai)), Made(ch)), Made(id));
      Makes(i) == Makes(l) + [ai, ch, id] && Acks(i) == Acks(l) && Releases(i) == Releases(l)
  {
    ViewsThen(l, Made(ai));
    ViewsThen(Then(l, Made(ai)), Made(ch));
    ViewsThen(Then(Then(l, Made(ai)), Made(ch)), Made(id));
    assert Makes(l) + [ai] + [ch] + [id] == Makes(l) + [ai, ch, id];
  }

  lemma OpenClientViews(l: Log, n: nat, faults: set<Error>)
    ensures var t := OpenClientLog(l, n, faults);
      Makes(t) == Makes(l) + OpenMade(n, faults) && Acks(t) == Acks(l) &&
      Releases(t) == Releases(l) + OpenUndone(n, faults)
  {
    if AddrInfo in faults {
      ViewsThen(l, MakeFailed(AddrInfoList));
    } else if ChannelCreation in faults {
      OpenChannelFailsViews(l, n, faults);
    } else if IdCreation in faults {
      OpenIdFailsViews(l, n, faults);
    } else {
      OpenResolveViews(l, n, faults);
    }
  }

  /** What the last two steps of `connect` do to the views. */
  lemma DialViews(l: Log, faults: set<Error>, ackFails: set<EventType>, q: seq<Delivery>,
                  ai: Handle, ch: Handle, id: Handle, pd: Handle, cq: Handle, qp: Handle,
                  destroysQp: bool)
    ensures var run := DialRun(l, faults, ackFails, q, ai, ch, id, pd, cq, qp, destroysQp);
      Makes(run.trace) == Makes(l) &&
      (ConnectRemote in faults ==>
         run.result == Failed(ConnectRemote) && run.kept == (if destroysQp then {} else {qp}) &&
         Releases(run.trace) == Releases(l) + (if destroysQp then [qp] else []) + [cq, pd, id, ch, ai]) &&
      (ConnectRemote !in faults ==>
         !(run.result.Failed? && NativeFailure(run.result.err)) &&
         run.kept == {ai, ch, id, pd, cq, qp} && Releases(run.trace) == Releases(l) &&
         (run.result.Done? ==>
            run.result.value == ClientConnection(ch, id, pd, cq, ai) &&
            Acks(run.trace) == Acks(l) + [Established] && run.consumed == Consumed(q, Established)))
  {
    ViewsThen(l, Asked(ConnectConn, id, false));
    TeardownViews(Then(l, Asked(ConnectConn, id, false)), ai, ch, id, pd, cq, qp, destroysQp);
    ViewsThen(l, Asked(ConnectConn, id, true));
  }

  /** The ROUTE_RESOLVED wait and what follows. */
  lemma RoutedViews(l: Log, faults: set<Error>, ackFails: set<EventType>, q: seq<Delivery>,
                    ai: Handle, ch: Handle, id: Handle, pd: Handle, cq: Handle, qp: Handle,
                    destroysQp: bool)
    ensures var run := RoutedRun(l, faults, ackFails, q, ai, ch, id, pd, cq, qp, destroysQp);
      Makes(run.trace) == Makes(l) &&
      (run.result.Failed? && NativeFailure(run.result.err) ==>
         run.result == Failed(ConnectRemote) && run.kept == (if destroysQp then {} else {qp}) &&
         Releases(run.trace) == Releases(l) + (if destroysQp then [qp] else []) + [cq, pd, id, ch, ai]) &&
      (!(run.result.Failed? && NativeFailure(run.result.err)) ==>
         run.kept == {ai, ch, id, pd, cq, qp} && Releases(run.trace) == Releases(l)) &&
      (run.result.Done? ==>
         run.result.value == ClientConnection(ch, id, pd, cq, ai) &&
         Acks(run.trace) == Acks(l) + [RouteResolved, Established] &&
         run.consumed == Consumed(q, RouteResolved) + Consumed(Remaining(q, RouteResolved), Established))
  {
    DialViews(AckLog(l, q, RouteResolved, ackFails), faults, ackFails, Remaining(q, RouteResolved),
              ai, ch, id, pd, cq, qp, destroysQp);
  }

  /** A failed `rdma_resolve_route`. */
  lemma RouteFailsViews(l: Log, faults: set<Error>, ackFails: set<EventType>, q: seq<Delivery>,
                        ai: Handle, ch: Handle, id: Handle, pd: Handle, cq: Handle, qp: Handle,
                        destroysQp: bool)
    requires Error.ResolveRoute in faults
    ensures var run := RouteRun(l, faults, ackFails, q, ai, ch, id, pd, cq, qp, destroysQp);
      Makes(run.trace) == Makes(l) && run.result == Failed(Error.ResolveRoute) &&
      run.kept == (if destroysQp then {} else {qp}) &&
      Releases(run.trace) == Releases(l) + (if destroysQp then [qp] else []) + [cq, pd, id, ch, ai]
  {
    ViewsThen(l, Asked(Op.ResolveRoute, id, false));
    TeardownViews(Then(l, Asked(Op.ResolveRoute, id, false)), ai, ch, id, pd, cq, qp, destroysQp);
  }

  /** `rdma_resolve_route` and what follows. */
  lemma RouteViews(l: Log, faults: set<Error>, ackFails: set<EventType>, q: seq<Delivery>,
                   ai: Handle, ch: Handle, id: Handle, pd: Handle, cq: Handle, qp: Handle,
                   destroysQp: bool)
    ensures var run := RouteRun(l, faults, ackFails, q, ai, ch, id, pd, cq, qp, destroysQp);
      Makes(run.trace) == Makes(l) &&
      (run.result.Failed? && NativeFailure(run.result.err) ==>
         (run.result.err == Error.ResolveRoute || run.result.err == ConnectRemote) &&
         run.kept == (if destroysQp then {} else {qp}) &&
         Releases(run.trace) == Releases(l) + (if destroysQp then [qp] else []) + [cq, pd, id, ch, ai]) &&
      (!(run.result.Failed? && NativeFailure(run.result.err)) ==>
         run.kept == {ai, ch, id, pd, cq, qp} && Releases(run.trace) == Releases(l)) &&
      (run.result.Done? ==>
         run.result.value == ClientConnection(ch, id, pd, cq, ai) &&
         Acks(run.trace) == Acks(l) + [RouteResolved, Established] &&
         run.consumed == Consumed(q, RouteResolved) + Consumed(Remaining(q, RouteResolved), Established))
  {
    if Error.ResolveRoute in faults {
      RouteFailsViews(l, faults, ackFails, q, ai, ch, id, pd, cq, qp, destroysQp);
    } else {
      ViewsThen(l, Asked(Op.ResolveRoute, id, true));
      RoutedViews(Then(l, Asked(Op.ResolveRoute, id, true)), faults, ackFails, q,
                  ai, ch, id, pd, cq, qp, destroysQp);
    }
  }

  /** A failed step among the first four of `connect` releases what the
      earlier steps made, in the reverse order. */
  lemma OpenReversed(n: nat, faults: set<Error>)
    requires OpenClientError(faults).Some?
    ensures OpenUndone(n, faults) == Reversed(OpenMade(n, faults))
  {
    var ai, ch, id := ClientAddrInfo(n), ClientChannel(n), ClientId(n);
    if AddrInfo !in faults && ChannelCreation in faults {
      assert [ai][1..] == [];
    } else if AddrInfo !in faults && IdCreation in faults {
      assert [ai, ch][1..] == [ch];
      assert [ch][1..] == [];
    } else if AddrInfo !in faults {
      ReversedThree(ai, ch, id);
    }
  }

  /** `connect` up to the point where all six handles are live: it has made
      them in order, released nothing, acknowledged ADDR_RESOLVED, and
      continues as `RouteRun` says. */
  lemma ConnectLinked(l: Log, n: nat, faults: set<Error>, ackFails: set<EventType>,
                      q: seq<Delivery>, destroysQp: bool)
    requires OpenClientError(faults).None? && AckedWait(q, AddrResolved, ackFails).Done?
    requires ProvisionError(faults).None?
    ensures var linked := ProvisionLog(AckLog(OpenClientLog(l, n, faults), q, AddrResolved, ackFails),
                                       n + 3, faults);
      var route := RouteRun(linked, faults, ackFails, Remaining(q, AddrResolved),
                            ClientAddrInfo(n), ClientChannel(n), ClientId(n),
                            Pd(n + 3), Cq(n + 3), Qp(n + 3), destroysQp);
      Makes(linked) == Makes(l) + [ClientAddrInfo(n), ClientChannel(n), ClientId(n),
                                   Pd(n + 3), Cq(n + 3), Qp(n + 3)] &&
      Releases(linked) == Releases(l) && Acks(linked) == Acks(l) + [AddrResolved] &&
      ConnectRun(l, n, faults, ackFails, q, destroysQp) ==
        route.(consumed := Consumed(q, AddrResolved) + route.consumed)
  {
    OpenClientViews(l, n, faults);
    ProvisionViews(AckLog(OpenClientLog(l, n, faults), q, AddrResolved, ackFails), n + 3, faults);
  }

  /** `connect` returns a connection exactly when none of its native calls
      fails and each of ADDR_RESOLVED, ROUTE_RESOLVED and ESTABLISHED
      arrives, in turn, and is acknowledged. */
  lemma ConnectSucceedsIff(l: Log, n: nat, faults: set<Error>, ackFails: set<EventType>,
                           q: seq<Delivery>, destroysQp: bool)
    ensures var q1 := Remaining(q, AddrResolved);
      var q2 := Remaining(q1, RouteResolved);
      ConnectRun(l, n, faults, ackFails, q, destroysQp).result.Done? <==>
        OpenClientError(faults).None? && AckedWait(q, AddrResolved, ackFails).Done? &&
        ProvisionError(faults).None? && Error.ResolveRoute !in faults &&
        AckedWait(q1, RouteResolved, ackFails).Done? && ConnectRemote !in faults &&
        AckedWait(q2, Established, ackFails).Done?
  {
  }

  /** The errors of the first four steps of `connect`, and of the PD, CQ
      and QP steps. */
  predicate OpenStepError(e: Error)
  {
    e == AddrInfo || e == ChannelCreation || e == IdCreation || e == Error.ResolveAddr
  }

  predicate ProvisionStepError(e: Error)
  {
    e == PdAlloc || e == CqCreate || e == QpCreate
  }

  /** Route resolution and what follows fail only with their own errors or
      those of their waits. */
  lemma RouteErrors(l: Log, faults: set<Error>, ackFails: set<EventType>, q: seq<Delivery>,
                    ai: Handle, ch: Handle, id: Handle, pd: Handle, cq: Handle, qp: Handle,
                    destroysQp: bool)
    ensures var r := RouteRun(l, faults, ackFails, q, ai, ch, id, pd, cq, qp, destroysQp).result;
      r.Failed? ==> r.err == Error.ResolveRoute || r.err == ConnectRemote ||
                    r.err == GetEvent || r.err == AckEvent
  {
  }

  /** `connect` fails in one of its first four steps, the PD, CQ and QP
      steps, or route resolution and `rdma_connect`, exactly when the
      native call concerned fails and everything before it succeeded. */
  lemma ConnectOpenFailsIff(l: Log, n: nat, faults: set<Error>, ackFails: set<EventType>,
                            q: seq<Delivery>, destroysQp: bool)
    ensures var r := ConnectRun(l, n, faults, ackFails, q, destroysQp).result;
      r.Failed? && OpenStepError(r.err) <==>
        OpenClientError(faults).Some?
  {
    RouteErrors(ProvisionLog(AckLog(OpenClientLog(l, n, faults), q, AddrResolved, ackFails), n + 3, faults),
                faults, ackFails, Remaining(q, AddrResolved), ClientAddrInfo(n), ClientChannel(n),
                ClientId(n), Pd(n + 3), Cq(n + 3), Qp(n + 3), destroysQp);
  }

  lemma ConnectProvisionFailsIff(l: Log, n: nat, faults: set<Error>, ackFails: set<EventType>,
                                 q: seq<Delivery>, destroysQp: bool)
    ensures var r := ConnectRun(l, n, faults, ackFails, q, destroysQp).result;
      r.Failed? && ProvisionStepError(r.err) <==>
        OpenClientError(faults).None? && AckedWait(q, AddrResolved, ackFails).Done? &&
        ProvisionError(faults).Some?
  {
    if OpenClientError(faults).None? && AckedWait(q, AddrResolved, ackFails).Done? &&
       ProvisionError(faults).None? {
      RouteErrors(ProvisionLog(AckLog(OpenClientLog(l, n, faults), q, AddrResolved, ackFails), n + 3, faults),
                  faults, ackFails, Remaining(q, AddrResolved), ClientAddrInfo(n), ClientChannel(n),
                  ClientId(n), Pd(n + 3), Cq(n + 3), Qp(n + 3), destroysQp);
    }
  }

  lemma ConnectTornDownIff(l: Log, n: nat, faults: set<Error>, ackFails: set<EventType>,
                           q: seq<Delivery>, destroysQp: bool)
    ensures var r := ConnectRun(l, n, faults, ackFails, q, destroysQp).result;
      var q1 := Remaining(q, AddrResolved);
      r.Failed? && (r.err == Error.ResolveRoute || r.err == ConnectRemote) <==>
        OpenClientError(faults).None? && AckedWait(q, AddrResolved, ackFails).Done? &&
        ProvisionError(faults).None? &&
        (Error.ResolveRoute in faults ||
         (AckedWait(q1, RouteResolved, ackFails).Done? && ConnectRemote in faults))
  {
    RouteErrors(ProvisionLog(AckLog(OpenClientLog(l, n, faults), q, AddrResolved, ackFails), n + 3, faults),
                faults, ackFails, Remaining(q, AddrResolved), ClientAddrInfo(n), ClientChannel(n),
                ClientId(n), Pd(n + 3), Cq(n + 3), Qp(n + 3), destroysQp);
  }

  /** The only errors `connect` reports are those of its own native calls
      and of its waits. */
  lemma ConnectErrors(l: Log, n: nat, faults: set<Error>, ackFails: set<EventType>,
                      q: seq<Delivery>, destroysQp: bool)
    ensures var r := ConnectRun(l, n, faults, ackFails, q, destroysQp).result;
      r.Failed? ==> OpenStepError(r.err) || ProvisionStepError(r.err) ||
                    r.err == Error.ResolveRoute || r.err == ConnectRemote ||
                    r.err == GetEvent || r.err == AckEvent
  {
    if OpenClientError(faults).None? && AckedWait(q, AddrResolved, ackFails).Done? &&
       ProvisionError(faults).None? {
      RouteErrors(ProvisionLog(AckLog(OpenClientLog(l, n, faults), q, AddrResolved, ackFails), n + 3, faults),
                  faults, ackFails, Remaining(q, AddrResolved), ClientAddrInfo(n), ClientChannel(n),
                  ClientId(n), Pd(n + 3), Cq(n + 3), Qp(n + 3), destroysQp);
    }
  }

  /** A successful `connect` owns the six handles it made, in the order
      address information, channel, id, PD, CQ, QP; it has released
      nothing, acknowledged the three events in order, and retrieved the
      events of the three waits. */
  lemma ConnectSuccess(l: Log, n: nat, faults: set<Error>, ackFails: set<EventType>,
                       q: seq<Delivery>, destroysQp: bool)
    requires ConnectRun(l, n, faults, ackFails, q, destroysQp).result.Done?
    ensures var run := ConnectRun(l, n, faults, ackFails, q, destroysQp);
      var ai, ch, id, pd, cq, qp := ClientAddrInfo(n), ClientChannel(n), ClientId(n),
                                    Pd(n + 3), Cq(n + 3), Qp(n + 3);
      var q1 := Remaining(q, AddrResolved);
      run.result.value == ClientConnection(ch, id, pd, cq, ai) &&
      run.kept == {ai, ch, id, pd, cq, qp} &&
      Makes(run.trace) == Makes(l) + [ai, ch, id, pd, cq, qp] &&
      Releases(run.trace) == Releases(l) &&
      Acks(run.trace) == Acks(l) + [AddrResolved, RouteResolved, Established] &&
      run.consumed == Consumed(q, AddrResolved) + (Consumed(q1, RouteResolved) +
                      Consumed(Remaining(q1, RouteResolved), Established))
  {
    ConnectSucceedsIff(l, n, faults, ackFails, q, destroysQp);
    ConnectLinked(l, n, faults, ackFails, q, destroysQp);
    var linked := ProvisionLog(AckLog(OpenClientLog(l, n, faults), q, AddrResolved, ackFails), n + 3, faults);
    RouteViews(linked, faults, ackFails, Remaining(q, AddrResolved), ClientAddrInfo(n), ClientChannel(n),
               ClientId(n), Pd(n + 3), Cq(n + 3), Qp(n + 3), destroysQp);
  }

  /** `connect` when one of its first four steps fails. */
  lemma ConnectOpenFails(l: Log, n: nat, faults: set<Error>, ackFails: set<EventType>,
                         q: seq<Delivery>, destroysQp: bool)
    requires OpenClientError(faults).Some?
    ensures var run := ConnectRun(l, n, faults, ackFails, q, destroysQp);
      run.result == Failed(OpenClientError(faults).value) && run.kept == {} && RolledBack(l, run.trace)
  {
    OpenClientViews(l, n, faults);
    OpenReversed(n, faults);
    UndoesBy(Makes(l), OpenMade(n, faults), Releases(l), OpenUndone(n, faults));
  }

  /** A failed PD, CQ or QP step followed by the release of the id, channel
      and address information made before it rolls all of them back. */
  lemma ProvisionCloseRollsBack(before: Log, l: Log, n: nat, faults: set<Error>,
                                ai: Handle, ch: Handle, id: Handle)
    requires Makes(l) == Makes(before) + [ai, ch, id] && Releases(l) == Releases(before)
    requires ProvisionError(faults).Some?
    ensures RolledBack(before, CloseClientLog(ProvisionLog(l, n, faults), ai, ch, id))
  {
    ProvisionViews(l, n, faults);
    CloseClientViews(ProvisionLog(l, n, faults), ai, ch, id);
    ProvisionReversed(n, faults);
    ReversedThree(ai, ch, id);
    UndoesThrough(Makes(before), [ai, ch, id], ProvisionMade(n, faults),
                  Releases(before), ProvisionUndone(n, faults), [id, ch, ai]);
  }

  /** `connect` when the PD, CQ or QP step fails. */
  lemma ConnectProvisionFails(l: Log, n: nat, faults: set<Error>, ackFails: set<EventType>,
                              q: seq<Delivery>, destroysQp: bool)
    requires OpenClientError(faults).None? && AckedWait(q, AddrResolved, ackFails).Done?
    requires ProvisionError(faults).Some?
    ensures var run := ConnectRun(l, n, faults, ackFails, q, destroysQp);
      run.result == Failed(ProvisionError(faults).value) && run.kept == {} && RolledBack(l, run.trace)
  {
    var addressed := AckLog(OpenClientLog(l, n, faults), q, AddrResolved, ackFails);
    OpenClientViews(l, n, faults);
    ProvisionCloseRollsBack(l, addressed, n + 3, faults, ClientAddrInfo(n), ClientChannel(n), ClientId(n));
  }

  /** When a native call of `connect` fails before the queue pair exists,
      nothing it made stays live and what it made is released latest
      first. */
  lemma ConnectRollbackUpToQp(l: Log, n: nat, faults: set<Error>, ackFails: set<EventType>,
                              q: seq<Delivery>, destroysQp: bool)
    requires ConnectRun(l, n, faults, ackFails, q, destroysQp).result.Failed?
    requires var e := ConnectRun(l, n, faults, ackFails, q, destroysQp).result.err;
      OpenStepError(e) || ProvisionStepError(e)
    ensures var run := ConnectRun(l, n, faults, ackFails, q, destroysQp);
      run.kept == {} && RolledBack(l, run.trace)
  {
    ConnectOpenFailsIff(l, n, faults, ackFails, q, destroysQp);
    ConnectProvisionFailsIff(l, n, faults, ackFails, q, destroysQp);
    if OpenClientError(faults).Some? {
      ConnectOpenFails(l, n, faults, ackFails, q, destroysQp);
    } else {
      ConnectProvisionFails(l, n, faults, ackFails, q, destroysQp);
    }
  }

  /** `connect` when route resolution or `rdma_connect` fails: the six
      handles were made, and the CQ, PD, id, channel and address information
      are released, latest first, after the queue pair only when
      `destroysQp`. */
  lemma ConnectTornDown(l: Log, n: nat, faults: set<Error>, ackFails: set<EventType>,
                        q: seq<Delivery>, destroysQp: bool)
    requires OpenClientError(faults).None? && AckedWait(q, AddrResolved, ackFails).Done?
    requires ProvisionError(faults).None?
    requires Error.ResolveRoute in faults ||
             (AckedWait(Remaining(q, AddrResolved), RouteResolved, ackFails).Done? && ConnectRemote in faults)
    ensures var run := ConnectRun(l, n, faults, ackFails, q, destroysQp);
      var ai, ch, id, pd, cq, qp := ClientAddrInfo(n), ClientChannel(n), ClientId(n),
                                    Pd(n + 3), Cq(n + 3), Qp(n + 3);
      run.kept == (if destroysQp then {} else {qp}) &&
      Makes(run.trace) == Makes(l) + [ai, ch, id, pd, cq, qp] &&
      Releases(run.trace) == Releases(l) + (if destroysQp then [qp] else []) + [cq, pd, id, ch, ai]
  {
    ConnectLinked(l, n, faults, ackFails, q, destroysQp);
    var linked := ProvisionLog(AckLog(OpenClientLog(l, n, faults), q, AddrResolved, ackFails), n + 3, faults);
    RouteViews(linked, faults, ackFails, Remaining(q, AddrResolved), ClientAddrInfo(n), ClientChannel(n),
               ClientId(n), Pd(n + 3), Cq(n + 3), Qp(n + 3), destroysQp);
  }

  /** When route resolution or `rdma_connect` fails, `connect` as written
      releases the CQ, PD, id, channel and address information, latest
      first, but leaves the queue pair live: the history is not rolled
      back. */
  lemma ConnectLeaksQp(l: Log, n: nat, faults: set<Error>, ackFails: set<EventType>, q: seq<Delivery>)
    requires ConnectRun(l, n, faults, ackFails, q, false).result.Failed?
    requires var e := ConnectRun(l, n, faults, ackFails, q, false).result.err;
      e == Error.ResolveRoute || e == ConnectRemote
    ensures var run := ConnectRun(l, n, faults, ackFails, q, false);
      var ai, ch, id, pd, cq, qp := ClientAddrInfo(n), ClientChannel(n), ClientId(n),
                                    Pd(n + 3), Cq(n + 3), Qp(n + 3);
      run.kept == {qp} &&
      Makes(run.trace) == Makes(l) + [ai, ch, id, pd, cq, qp] &&
      Releases(run.trace) == Releases(l) + [cq, pd, id, ch, ai] &&
      !RolledBack(l, run.trace)
  {
    var run := ConnectRun(l, n, faults, ackFails, q, false);
    ConnectTornDownIff(l, n, faults, ackFails, q, false);
    ConnectTornDown(l, n, faults, ackFails, q, false);
    assert |Releases(run.trace)[|Releases(l)|..]| == 5;
    assert |Makes(run.trace)[|Makes(l)|..]| == 6;
  }

  /** With the queue pair destroyed on those paths too, every failed native
      call of `connect` leaves nothing live and releases what was made,
      latest first. */
  lemma ConnectFixedRollback(l: Log, n: nat, faults: set<Error>, ackFails: set<EventType>,
                             q: seq<Delivery>)
    requires ConnectRun(l, n, faults, ackFails, q, true).result.Failed?
    requires NativeFailure(ConnectRun(l, n, faults, ackFails, q, true).result.err)
    ensures var run := ConnectRun(l, n, faults, ackFails, q, true);
      run.kept == {} && RolledBack(l, run.trace)
  {
    var run := ConnectRun(l, n, faults, ackFails, q, true);
    ConnectErrors(l, n, faults, ackFails, q, true);
    if run.result.err == Error.ResolveRoute || run.result.err == ConnectRemote {
      var ai, ch, id, pd, cq, qp := ClientAddrInfo(n), ClientChannel(n), ClientId(n),
                                    Pd(n + 3), Cq(n + 3), Qp(n + 3);
      ConnectTornDownIff(l, n, faults, ackFails, q, true);
      ConnectTornDown(l, n, faults, ackFails, q, true);
      UndoesSix(Makes(l), Releases(l), ai, ch, id, pd, cq, qp);
    } else {
      ConnectRollbackUpToQp(l, n, faults, ackFails, q, true);
    }
  }

  /** When a wait of `connect` throws or blocks, nothing is released: the
      three handles made before ADDR_RESOLVED, or all six after it, stay
      live. */
  lemma ConnectThrowKeeps(l: Log, n: nat, faults: set<Error>, ackFails: set<EventType>,
                          q: seq<Delivery>, destroysQp: bool)
    requires var r := ConnectRun(l, n, faults, ackFails, q, destroysQp).result;
      r.Stuck? || (r.Failed? && !NativeFailure(r.err))
    ensures var run := ConnectRun(l, n, faults, ackFails, q, destroysQp);
      var ai, ch, id := ClientAddrInfo(n), ClientChannel(n), ClientId(n);
      Releases(run.trace) == Releases(l) &&
      run.kept == if AckedWait(q, AddrResolved, ackFails).Done? then {ai, ch, id, Pd(n + 3), Cq(n + 3), Qp(n + 3)}
                  else {ai, ch, id}
  {
    OpenClientViews(l, n, faults);
    assert OpenClientError(faults).None?;
    if AckedWait(q, AddrResolved, ackFails).Done? {
      assert ProvisionError(faults).None?;
      ConnectLinked(l, n, faults, ackFails, q, destroysQp);
      var linked := ProvisionLog(AckLog(OpenClientLog(l, n, faults), q, AddrResolved, ackFails), n + 3, faults);
      RouteViews(linked, faults, ackFails, Remaining(q, AddrResolved), ClientAddrInfo(n), ClientChannel(n),
                 ClientId(n), Pd(n + 3), Cq(n + 3), Qp(n + 3), destroysQp);
    } else {
    }
  }

  /** A concrete run: the address resolves and `rdma_resolve_route` fails.
      As written, `connect` leaves the queue pair (serial 5) live; with the
      queue pair destroyed, nothing stays live. */
  lemma ConnectLeakExample()
    ensures var q := [Deliver(CmEvent(AddrResolved, 0, 2))];
      var run := ConnectRun(Start, 0, {Error.ResolveRoute}, {}, q, false);
      run.result == Failed(Error.ResolveRoute) && run.kept == {Handle(QueuePair, 5)} &&
      !RolledBack(Start, run.trace) &&
      ConnectRun(Start, 0, {Error.ResolveRoute}, {}, q, true).kept == {}
  {
    var q := [Deliver(CmEvent(AddrResolved, 0, 2))];
    assert FirstStop(q, AddrResolved) == 0;
    ConnectLeaksQp(Start, 0, {Error.ResolveRoute}, {}, q);
  }
}
