/** Connection-manager events and the filtering wait of
    `internal::await_cm_event`, as pure functions over the finite sequence of
    deliveries a channel will ever make. */
module CmEvents {
  import opened Outcomes

  /** `rdma_cm_event_type`. */
  datatype EventType =
    | AddrResolved | AddrError | RouteResolved | RouteError
    | ConnectRequest | ConnectResponse | ConnectError | Unreachable
    | Rejected | Established | Disconnected | DeviceRemoval
    | MulticastJoin | MulticastError | AddrChange | TimewaitExit

  /** An `rdma_cm_event`: its type, its status, and the serial of the
      `rdma_cm_id` it concerns (for a connection request, the new id the
      provider created for the incoming connection). */
  datatype CmEvent = CmEvent(event: EventType, status: int, id: nat)

  /** What one call of `rdma_get_cm_event` on a channel produces: the next
      event, or a failure of the call itself. */
  datatype Delivery = Deliver(e: CmEvent) | RetrievalFails

  /** The event the wait is looking for: status 0 and the expected type. */
  predicate Wanted(e: CmEvent, t: EventType)
  {
    e.status == 0 && e.event == t
  }

  /** A delivery at which the wait stops: the retrieval failed, or it
      produced a wanted event. */
  predicate Stops(d: Delivery, t: EventType)
  {
    d.RetrievalFails? || Wanted(d.e, t)
  }

  /** The position of the first delivery at which the wait stops, or `|q|`
      when there is none. */
  function FirstStop(q: seq<Delivery>, t: EventType): (i: nat)
    ensures i <= |q|
    ensures i < |q| ==> Stops(q[i], t)
    ensures forall j :: 0 <= j < i ==> !Stops(q[j], t)
  {
    if q == [] then 0
    else if Stops(q[0], t) then 0
    else 1 + FirstStop(q[1..], t)
  }

  /** What `await_cm_event(ch, t)` returns when the channel will deliver `q`:
      the first wanted event; the retrieval error if a retrieval fails
      first; `Stuck` when neither ever happens and the loop blocks for good. */
  function WaitResult(q: seq<Delivery>, t: EventType): Outcome<CmEvent>
  {
    var i := FirstStop(q, t);
    if i == |q| then Stuck
    else if q[i].RetrievalFails? then Failed(GetEvent)
    else Done(q[i].e)
  }

  /** The deliveries still to come once the wait returns. */
  function Remaining(q: seq<Delivery>, t: EventType): seq<Delivery>
  {
    var i := FirstStop(q, t);
    if i == |q| then [] else q[i + 1..]
  }

  /** The events the wait takes off the channel: every delivery before the
      stop, and the stopping one when it is an event. */
  function Consumed(q: seq<Delivery>, t: EventType): (es: seq<CmEvent>)
    ensures |es| <= |q|
  {
    if q == [] then []
    else if q[0].RetrievalFails? then []
    else if Wanted(q[0].e, t) then [q[0].e]
    else [q[0].e] + Consumed(q[1..], t)
  }

  /** The wait returns an event exactly when some delivery is that wanted
      event and every delivery before it is an event the wait does not
      want. */
  lemma {:induction false} WaitDoneIff(q: seq<Delivery>, t: EventType, e: CmEvent)
    ensures WaitResult(q, t) == Done(e) <==>
      exists i :: 0 <= i < |q| && q[i] == Deliver(e) && Wanted(e, t) &&
        forall j :: 0 <= j < i ==> q[j].Deliver? && !Wanted(q[j].e, t)
  {
    var k := FirstStop(q, t);
    if WaitResult(q, t) == Done(e) {
      assert 0 <= k < |q| && q[k] == Deliver(e);
    }
    if exists i :: 0 <= i < |q| && q[i] == Deliver(e) && Wanted(e, t) &&
         forall j :: 0 <= j < i ==> q[j].Deliver? && !Wanted(q[j].e, t)
    {
      var i :| 0 <= i < |q| && q[i] == Deliver(e) && Wanted(e, t) &&
               forall j :: 0 <= j < i ==> q[j].Deliver? && !Wanted(q[j].e, t);
      assert Stops(q[i], t);
      assert k == i;
    }
  }

  /** The wait fails exactly when a retrieval fails before any wanted event
      arrives. */
  lemma {:induction false} WaitFailsIff(q: seq<Delivery>, t: EventType)
    ensures WaitResult(q, t).Failed? <==>
      exists i :: 0 <= i < |q| && q[i].RetrievalFails? &&
        forall j :: 0 <= j < i ==> !Stops(q[j], t)
    ensures WaitResult(q, t).Failed? ==> WaitResult(q, t).err == GetEvent
  {
    var k := FirstStop(q, t);
    if exists i :: 0 <= i < |q| && q[i].RetrievalFails? &&
         forall j :: 0 <= j < i ==> !Stops(q[j], t)
    {
      var i :| 0 <= i < |q| && q[i].RetrievalFails? &&
               forall j :: 0 <= j < i ==> !Stops(q[j], t);
      assert Stops(q[i], t);
      assert k == i;
    }
  }

  /** The wait blocks for good exactly when nothing in `q` stops it. */
  lemma WaitStuckIff(q: seq<Delivery>, t: EventType)
    ensures WaitResult(q, t) == Stuck <==> forall j :: 0 <= j < |q| ==> !Stops(q[j], t)
  {
    var k := FirstStop(q, t);
    if k < |q| {
      assert Stops(q[k], t);
    }
  }

  /** The consumed events are the first deliveries of `q`, up to and
      including the stop when it is an event. */
  lemma {:induction false} ConsumedIsPrefix(q: seq<Delivery>, t: EventType)
    ensures var i := FirstStop(q, t);
      |Consumed(q, t)| == (if i < |q| && q[i].Deliver? then i + 1 else i)
    ensures forall j :: 0 <= j < |Consumed(q, t)| ==> q[j] == Deliver(Consumed(q, t)[j])
  {
    if q != [] && !Stops(q[0], t) {
      ConsumedIsPrefix(q[1..], t);
    }
  }

  lemma {:induction false} FirstStopPrefix(q: seq<Delivery>, later: seq<Delivery>, t: EventType)
    requires FirstStop(q, t) < |q|
    ensures FirstStop(q + later, t) == FirstStop(q, t)
  {
    if !Stops(q[0], t) {
      assert (q + later)[1..] == q[1..] + later;
      FirstStopPrefix(q[1..], later, t);
    }
  }

  /** The wait never looks past the delivery that stops it: deliveries that
      follow do not change its result. */
  lemma WaitIgnoresLater(q: seq<Delivery>, later: seq<Delivery>, t: EventType)
    requires FirstStop(q, t) < |q|
    ensures WaitResult(q + later, t) == WaitResult(q, t)
    ensures Remaining(q + later, t) == Remaining(q, t) + later
    ensures Consumed(q + later, t) == Consumed(q, t)
  {
    var i := FirstStop(q, t);
    FirstStopPrefix(q, later, t);
    assert (q + later)[i] == q[i];
    assert (q + later)[i + 1..] == q[i + 1..] + later;
    ConsumedIsPrefix(q, t);
    ConsumedIsPrefix(q + later, t);
    var a, b := Consumed(q + later, t), Consumed(q, t);
    assert forall j :: 0 <= j < |a| ==> a[j] == b[j] by {
      forall j | 0 <= j < |a|
        ensures a[j] == b[j]
      {
        assert (q + later)[j] == q[j];
      }
    }
  }

  /** One delivery of the wait. One that does not stop it leaves the
      outcome and the deliveries still to come unchanged, and adds its event
      to those consumed; one that stops it decides the outcome, and
      everything after it is left on the channel. */
  lemma WaitStep(q: seq<Delivery>, t: EventType)
    requires q != []
    ensures !Stops(q[0], t) ==>
      WaitResult(q[1..], t) == WaitResult(q, t) &&
      Remaining(q[1..], t) == Remaining(q, t) &&
      Consumed(q, t) == [q[0].e] + Consumed(q[1..], t)
    ensures q[0].RetrievalFails? ==>
      WaitResult(q, t) == Failed(GetEvent) && Remaining(q, t) == q[1..] && Consumed(q, t) == []
    ensures q[0].Deliver? && Wanted(q[0].e, t) ==>
      WaitResult(q, t) == Done(q[0].e) && Remaining(q, t) == q[1..] && Consumed(q, t) == [q[0].e]
  {
  }

  /** Everything the wait takes off the channel is accounted for: the
      consumed events, a failed retrieval if there was one, and what is left
      make up `q`; every consumed event but the last is one the wait did not
      want and drops without acknowledging. */
  lemma ConsumedAccount(q: seq<Delivery>, t: EventType)
    ensures |Consumed(q, t)| + (if WaitResult(q, t).Failed? then 1 else 0) +
            |Remaining(q, t)| == |q|
    ensures forall j :: 0 <= j < |Consumed(q, t)| - 1 ==> !Wanted(Consumed(q, t)[j], t)
    ensures WaitResult(q, t).Done? ==>
      Consumed(q, t) != [] && Consumed(q, t)[|Consumed(q, t)| - 1] == WaitResult(q, t).value
  {
    ConsumedIsPrefix(q, t);
  }
}
