/** `internal::await_cm_event` and `internal::await_ack_cm_event`
    (src/rdma.cpp): pull events off a channel until one of the expected type
    with status 0 arrives. */
module Await {
  import opened Outcomes
  import opened CmEvents
  import opened Verbs

  /** The serials `lo` up to `hi`, exclusive. */
  ghost function Serials(lo: nat, hi: nat): set<nat>
    decreases hi
  {
    if hi <= lo then {} else Serials(lo, hi - 1) + {hi - 1}
  }

  /** A dropped first delivery moves its event from what is still to be
      consumed to what has been retrieved. */
  lemma DropAccount(before: seq<CmEvent>, q: seq<Delivery>, t: EventType)
    requires q != [] && !Stops(q[0], t)
    ensures before + [q[0].e] + Consumed(q[1..], t) == before + Consumed(q, t)
  {
    WaitStep(q, t);
  }

  /** `await_cm_event(ch, t)`. It returns what `WaitResult` says for the
      deliveries the channel had left, takes off the channel exactly the
      deliveries up to the stop, and acknowledges none of the events it
      retrieves: the ones it drops stay unacknowledged, and the one it
      returns is the last one retrieved. */
  method AwaitCmEvent(v: Native, ch: Handle, t: EventType) returns (r: Outcome<CmEvent>, serial: nat)
    requires v.Valid() && ch in v.pending
    modifies v
    ensures v.Valid()
    ensures r == WaitResult(old(v.pending[ch]), t)
    ensures v.pending == old(v.pending)[ch := Remaining(old(v.pending[ch]), t)]
    ensures v.received == old(v.received) + Consumed(old(v.pending[ch]), t)
    ensures v.unacked == old(v.unacked) + Serials(|old(v.received)|, |v.received|)
    ensures r.Done? ==> serial == |v.received| - 1 && v.received[serial] == r.value
    ensures v.next == old(v.next) && v.live == old(v.live) && v.marks == old(v.marks)
  {
    ghost var q0 := v.pending[ch];
    serial := 0;
    while true
      invariant v.Valid() && ch in v.pending
      invariant WaitResult(v.pending[ch], t) == WaitResult(q0, t)
      invariant Remaining(v.pending[ch], t) == Remaining(q0, t)
      invariant old(v.received) + Consumed(q0, t) == v.received + Consumed(v.pending[ch], t)
      invariant v.pending == old(v.pending)[ch := v.pending[ch]]
      invariant |old(v.received)| <= |v.received|
      invariant v.unacked == old(v.unacked) + Serials(|old(v.received)|, |v.received|)
      invariant v.next == old(v.next) && v.live == old(v.live) && v.marks == old(v.marks)
      decreases |v.pending[ch]|
    {
      ghost var q := v.pending[ch];
      ghost var before := v.received;
      var d, got := v.GetCmEvent(ch);
      if q != [] {
        WaitStep(q, t);
      }
      if d.None? {
        // Nothing will ever arrive: `rdma_get_cm_event` blocks for good.
        return Stuck, serial;
      }
      if d.value.RetrievalFails? {
        // The call failed: `runtime_error("Failed to get RDMA CM event")`.
        return Failed(GetEvent), serial;
      }
      if Wanted(d.value.e, t) {
        return Done(d.value.e), got;
      }
      DropAccount(before, q, t);
      assert Serials(|old(v.received)|, |v.received|) ==
             Serials(|old(v.received)|, |before|) + {got};
    }
  }

  /** What `await_ack_cm_event(ch, t)` reports when the channel will
      deliver `q` and the acknowledgement of a `t` event fails exactly when
      `t` is in `ackFails`. */
  function AckedWait(q: seq<Delivery>, t: EventType, ackFails: set<EventType>): (r: Outcome<CmEvent>)
    ensures r.Done? ==> r == WaitResult(q, t) && t !in ackFails
    ensures !WaitResult(q, t).Done? ==> r == WaitResult(q, t)
    ensures WaitResult(q, t).Done? ==> (r.Done? <==> t !in ackFails)
    ensures WaitResult(q, t).Done? && t in ackFails ==> r == Failed(AckEvent)
    ensures r.Failed? ==> r.err == GetEvent || r.err == AckEvent
  {
    var w := WaitResult(q, t);
    if w.Done? && t in ackFails then Failed(AckEvent) else w
  }

  /** The history `l` followed by the acknowledgement `await_ack_cm_event`
      makes: one, of the event it waited for, when the wait returned an
      event; none otherwise. Waiting makes and releases no handle. */
  function AckLog(l: Log, q: seq<Delivery>, t: EventType, ackFails: set<EventType>): (r: Log)
    ensures Makes(r) == Makes(l) && Releases(r) == Releases(l)
    ensures Acks(r) == Acks(l) + (if WaitResult(q, t).Done? then [t] else [])
  {
    if WaitResult(q, t).Done? then
      ViewsThen(l, Acknowledged(t, t !in ackFails));
      Then(l, Acknowledged(t, t !in ackFails))
    else l
  }

  /** `await_ack_cm_event(ch, t)`: wait as above, then acknowledge exactly
      the event the wait returned; a failed acknowledgement is an error. When
      the wait itself does not return an event, nothing is acknowledged. */
  method AwaitAckCmEvent(v: Native, ch: Handle, t: EventType, ackFails: set<EventType>)
      returns (r: Outcome<CmEvent>)
    requires v.Valid() && ch in v.pending
    modifies v
    ensures v.Valid()
    ensures r == AckedWait(old(v.pending[ch]), t, ackFails)
    ensures v.pending == old(v.pending)[ch := Remaining(old(v.pending[ch]), t)]
    ensures v.received == old(v.received) + Consumed(old(v.pending[ch]), t)
    ensures var added := Serials(|old(v.received)|, |v.received|);
      v.unacked == if r.Done? then old(v.unacked) + added - {|v.received| - 1}
                   else old(v.unacked) + added
    ensures v.marks == AckLog(old(v.marks), old(v.pending[ch]), t, ackFails)
    ensures v.next == old(v.next) && v.live == old(v.live)
  {
    var serial;
    r, serial := AwaitCmEvent(v, ch, t);
    if !r.Done? {
      return r;
    }
    var ok := v.AckCmEvent(serial, t in ackFails);
    if !ok {
      // `runtime_error("Failed to acknowledge RDMA CM event")`.
      return Failed(AckEvent);
    }
  }
}
