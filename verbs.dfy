/** The native libraries (librdmacm and libibverbs) as one resource tracker.
    Every foreign call the connection code makes is a method of `Native`;
    whether a fallible call fails is an oracle argument, and the events a
    channel will deliver are given when the channel is created. The tracker
    records which handles are live, which retrieved events are still
    unacknowledged, and the sequence of calls that matter for ordering. */
module Verbs {
  import opened Outcomes
  import opened CmEvents

  /** The kinds of native object the code allocates and releases. `ProviderId`
      is an `rdma_cm_id` the provider creates for an incoming connection
      request; the code never creates or destroys one itself. */
  datatype Kind =
    | AddrInfoList | EventChannel | CmId | ProviderId
    | ProtectionDomain | CompletionQueue | QueuePair | MemoryRegion

  /** A native pointer: its kind and a serial that makes it distinct from
      every other handle handed out. */
  datatype Handle = Handle(kind: Kind, serial: nat)

  /** The requests on an `rdma_cm_id` that succeed or fail without creating
      anything: `rdma_bind_addr`, `rdma_listen`, `rdma_resolve_addr`,
      `rdma_resolve_route`, `rdma_accept`, `rdma_connect`. */
  datatype Op = BindAddr | Listen | ResolveAddr | ResolveRoute | AcceptConn | ConnectConn

  /** One step of the tracker's history. Event retrievals are not marks: how
      many events a wait drops depends on the channel, not on the code. */
  datatype Mark =
    | Made(h: Handle)
    | MakeFailed(kind: Kind)
    | Released(h: Handle)
    | Asked(op: Op, target: Handle, ok: bool)
    | Acknowledged(event: EventType, ok: bool)

  /** The history of marks, latest last. */
  datatype Log = Start | Then(before: Log, last: Mark)

  /** The marks of a history, in order. */
  function Entries(l: Log): seq<Mark>
  {
    if l.Start? then [] else Entries(l.before) + [l.last]
  }

  /** The handles a history makes, in order. */
  function Makes(l: Log): seq<Handle>
  {
    if l.Start? then [] else Makes(l.before) + (if l.last.Made? then [l.last.h] else [])
  }

  /** The handles a history releases, in order. */
  function Releases(l: Log): seq<Handle>
  {
    if l.Start? then [] else Releases(l.before) + (if l.last.Released? then [l.last.h] else [])
  }

  /** The event types a history acknowledges (or tries to), in order. */
  function Acks(l: Log): seq<EventType>
  {
    if l.Start? then [] else Acks(l.before) + (if l.last.Acknowledged? then [l.last.event] else [])
  }

  /** Each view of a history grows by at most the one mark appended. */
  lemma ViewsThen(l: Log, m: Mark)
    ensures Entries(Then(l, m)) == Entries(l) + [m]
    ensures Makes(Then(l, m)) == Makes(l) + (if m.Made? then [m.h] else [])
    ensures Releases(Then(l, m)) == Releases(l) + (if m.Released? then [m.h] else [])
    ensures Acks(Then(l, m)) == Acks(l) + (if m.Acknowledged? then [m.event] else [])
  {
  }

  /** The same for every history at once, so that a chain of marks unfolds
      to its full depth. */
  lemma Views()
    ensures forall l, m {:trigger Entries(Then(l, m))} :: Entries(Then(l, m)) == Entries(l) + [m]
    ensures forall l, m {:trigger Makes(Then(l, m))} ::
      Makes(Then(l, m)) == Makes(l) + (if m.Made? then [m.h] else [])
    ensures forall l, m {:trigger Releases(Then(l, m))} ::
      Releases(Then(l, m)) == Releases(l) + (if m.Released? then [m.h] else [])
    ensures forall l, m {:trigger Acks(Then(l, m))} ::
      Acks(Then(l, m)) == Acks(l) + (if m.Acknowledged? then [m.event] else [])
  {
  }

  /** `s` backwards. */
  function Reversed<T>(s: seq<T>): (r: seq<T>)
    ensures |r| == |s| && forall i :: 0 <= i < |s| ==> r[i] == s[|s| - 1 - i]
  {
    if s == [] then [] else Reversed(s[1..]) + [s[0]]
  }

  /** Reversing a concatenation reverses the order of its parts. */
  lemma {:induction false} ReversedAppend<T>(a: seq<T>, b: seq<T>)
    ensures Reversed(a + b) == Reversed(b) + Reversed(a)
  {
    if a == [] {
      assert a + b == b;
    } else {
      assert (a + b)[1..] == a[1..] + b;
      ReversedAppend(a[1..], b);
    }
  }

  lemma ReversedThree<T>(x: T, y: T, z: T)
    ensures Reversed([x, y, z]) == [z, y, x]
  {
    assert [x, y, z][1..] == [y, z];
    assert [y, z][1..] == [z];
    assert [z][1..] == [];
  }

  class Native {
    /** The serial the next allocation receives. */
    var next: nat
    /** The serial the next retrieved event receives (the `rdma_cm_event`
        pointer the provider hands out). */
    var nextEvent: nat
    /** For each open event channel, the deliveries it has yet to make. */
    var pending: map<Handle, seq<Delivery>>
    /** Handles allocated and not yet released. */
    ghost var live: set<Handle>
    /** Every event retrieved so far, in order; an event's serial is its
        position here. */
    ghost var received: seq<CmEvent>
    /** Serials of retrieved events not yet acknowledged. */
    ghost var unacked: set<nat>
    /** Allocations, releases, requests and acknowledgements, in order. */
    ghost var marks: Log

    ghost predicate Valid()
      reads this
    {
      (forall h {:trigger h in live} :: h in live ==> h.serial < next) &&
      (forall ch {:trigger ch in pending} :: ch in pending ==> ch.serial < next) &&
      nextEvent == |received|
    }

    /** A library with nothing allocated yet. */
    constructor ()
      ensures Valid() && live == {} && unacked == {} && received == [] && marks == Start
      ensures pending == map[]
    {
      next := 0;
      nextEvent := 0;
      pending := map[];
      live := {};
      received := [];
      unacked := {};
      marks := Start;
    }

    /** An allocating call (`rdma_getaddrinfo`, `rdma_create_id`,
        `ibv_alloc_pd`, `ibv_create_cq`, `rdma_create_qp`, `ibv_reg_mr`): a
        fresh handle on success, nothing on failure. */
    method Allocate(kind: Kind, fails: bool) returns (h: Option<Handle>)
      requires Valid() && kind != EventChannel
      modifies this
      ensures Valid()
      ensures h.None? <==> fails
      ensures next == if h.Some? then old(next) + 1 else old(next)
      ensures h.Some? ==> h.value == Handle(kind, old(next)) && h.value !in old(live)
      ensures h.Some? ==> live == old(live) + {h.value} && marks == Then(old(marks), Made(h.value))
      ensures h.None? ==> live == old(live) && marks == Then(old(marks), MakeFailed(kind))
      ensures pending == old(pending) && received == old(received) && unacked == old(unacked)
    {
      if fails {
        marks := Then(marks, MakeFailed(kind));
        return None;
      }
      var h0 := Handle(kind, next);
      next := next + 1;
      live := live + {h0};
      marks := Then(marks, Made(h0));
      return Some(h0);
    }

    /** `rdma_create_event_channel`: on success a fresh channel that will
        deliver `incoming`. */
    method CreateEventChannel(fails: bool, incoming: seq<Delivery>) returns (h: Option<Handle>)
      requires Valid()
      modifies this
      ensures Valid()
      ensures h.None? <==> fails
      ensures next == if h.Some? then old(next) + 1 else old(next)
      ensures h.Some? ==> h.value == Handle(EventChannel, old(next)) && h.value !in old(live) &&
                          h.value !in old(pending)
      ensures h.Some? ==> live == old(live) + {h.value} && marks == Then(old(marks), Made(h.value)) &&
                          pending == old(pending)[h.value := incoming]
      ensures h.None? ==> live == old(live) && marks == Then(old(marks), MakeFailed(EventChannel)) &&
                          pending == old(pending)
      ensures received == old(received) && unacked == old(unacked)
    {
      if fails {
        marks := Then(marks, MakeFailed(EventChannel));
        return None;
      }
      var h0 := Handle(EventChannel, next);
      next := next + 1;
      live := live + {h0};
      marks := Then(marks, Made(h0));
      pending := pending[h0 := incoming];
      return Some(h0);
    }

    /** A releasing call (`rdma_freeaddrinfo`, `rdma_destroy_event_channel`,
        `rdma_destroy_id`, `ibv_dealloc_pd`, `ibv_destroy_cq`,
        `rdma_destroy_qp`, `ibv_dereg_mr`). Only a live handle may be
        released, so nothing is released twice. */
    method Release(h: Handle)
      requires Valid() && h in live
      modifies this
      ensures Valid()
      ensures live == old(live) - {h} && marks == Then(old(marks), Released(h))
      ensures pending == if h.kind == EventChannel then old(pending) - {h} else old(pending)
      ensures next == old(next) && received == old(received) && unacked == old(unacked)
    {
      live := live - {h};
      marks := Then(marks, Released(h));
      if h.kind == EventChannel {
        pending := pending - {h};
      }
    }

    /** A request on an id that allocates nothing; it reports whether it
        succeeded. */
    method Request(op: Op, target: Handle, fails: bool) returns (ok: bool)
      requires Valid()
      modifies this
      ensures Valid()
      ensures ok == !fails
      ensures marks == Then(old(marks), Asked(op, target, ok))
      ensures next == old(next) && live == old(live) && pending == old(pending)
      ensures received == old(received) && unacked == old(unacked)
    {
      ok := !fails;
      marks := Then(marks, Asked(op, target, ok));
    }

    /** `rdma_get_cm_event`: the next delivery of the channel, which must be
        open. `None` when the channel will never deliver again, so that the
        call would block for good. A retrieved event becomes an
        unacknowledged event whose serial is its place in `received`. */
    method GetCmEvent(ch: Handle) returns (d: Option<Delivery>, serial: nat)
      requires Valid() && ch in pending
      modifies this
      ensures Valid()
      ensures old(pending[ch]) == [] ==> d.None? && pending == old(pending) &&
                                         received == old(received) && unacked == old(unacked)
      ensures old(pending[ch]) != [] ==> d == Some(old(pending[ch])[0]) &&
                                         pending == old(pending)[ch := old(pending[ch])[1..]]
      ensures d.Some? && d.value.Deliver? ==>
        received == old(received) + [d.value.e] && unacked == old(unacked) + {serial} &&
        serial == |old(received)|
      ensures d.Some? && d.value.RetrievalFails? ==>
        received == old(received) && unacked == old(unacked)
      ensures next == old(next) && live == old(live) && marks == old(marks)
    {
      var q := pending[ch];
      serial := nextEvent;
      if q == [] {
        return None, serial;
      }
      pending := pending[ch := q[1..]];
      if q[0].Deliver? {
        unacked := unacked + {serial};
        received := received + [q[0].e];
        nextEvent := nextEvent + 1;
      }
      return Some(q[0]), serial;
    }

    /** `rdma_ack_cm_event` on a retrieved, unacknowledged event. A failed
        acknowledgement leaves the event unacknowledged. */
    method AckCmEvent(serial: nat, fails: bool) returns (ok: bool)
      requires Valid() && serial in unacked && serial < |received|
      modifies this
      ensures Valid()
      ensures ok == !fails
      ensures unacked == if ok then old(unacked) - {serial} else old(unacked)
      ensures received == old(received)
      ensures marks == Then(old(marks), Acknowledged(received[serial].event, ok))
      ensures next == old(next) && live == old(live) && pending == old(pending)
    {
      ok := !fails;
      if ok {
        unacked := unacked - {serial};
      }
      marks := Then(marks, Acknowledged(received[serial].event, ok));
    }
  }
}
