/**
 The bounded, cancellable queue in front of the blocking USB writer.

 Admission slots, the request list and the three terminal flags change together
 under one lock, so each critical section is one method here and one function on
 `QueueState`. The same functions are the queue steps of `UsbInterface`.
 */
module UsbWriteQueue {

  datatype Phase = Detect | Capability | Initialise | Packet | Detach

  // The logical owner of a request: a control sequence, the application pump's
  // packet number `token`, or the background lane's packet number `id`.
  datatype Lane = Control | Ordinary(token: nat) | Background(id: nat)

  datatype Request = Request(phase: Phase, lane: Lane, awaitsDetach: bool, holdsSlot: bool)

  const DETACH: Request := Request(Detach, Control, false, false)

  datatype QueueState = QueueState(
    requests: seq<Request>, accepting: bool, cancelled: bool, workerClosed: bool, freeSlots: nat)

  function Empty(capacity: nat): QueueState {
    QueueState([], true, false, false, capacity)
  }

  function SlotOf(r: Request): nat {
    if r.holdsSlot then 1 else 0
  }

  function SlotsHeld(requests: seq<Request>): nat {
    if requests == [] then 0 else SlotOf(requests[0]) + SlotsHeld(requests[1..])
  }

  predicate CanEnqueue(q: QueueState) {
    q.accepting && !q.cancelled && !q.workerClosed && q.freeSlots > 0
  }

  function Enqueued(q: QueueState, r: Request): QueueState
    requires CanEnqueue(q)
  {
    q.(requests := q.requests + [r.(holdsSlot := true)], freeSlots := q.freeSlots - 1)
  }

  // Dropping every queued request returns the slots they held.
  function Cleared(q: QueueState): QueueState {
    q.(requests := [], freeSlots := q.freeSlots + SlotsHeld(q.requests))
  }

  predicate CanDetach(q: QueueState) {
    !q.cancelled && !q.workerClosed
  }

  function Detaching(q: QueueState): QueueState {
    Cleared(q).(accepting := false, requests := [DETACH])
  }

  function Cancelled(q: QueueState): QueueState {
    Cleared(q).(accepting := false, cancelled := true)
  }

  function WorkerClosed(q: QueueState): QueueState {
    Cleared(q).(accepting := false, workerClosed := true)
  }

  predicate CanPop(q: QueueState) {
    !q.cancelled && q.requests != []
  }

  function Popped(q: QueueState): QueueState
    requires CanPop(q)
  {
    q.(requests := q.requests[1..])
  }

  // The writer drops a request it had popped.
  function Returned(q: QueueState, r: Request): QueueState {
    q.(freeSlots := q.freeSlots + SlotOf(r))
  }

  lemma {:induction false} SlotsHeldAppend(a: seq<Request>, b: seq<Request>)
    ensures SlotsHeld(a + b) == SlotsHeld(a) + SlotsHeld(b)
  {
    if a == [] {
      assert a + b == b;
    } else {
      SlotsHeldAppend(a[1..], b);
      assert (a + b)[1..] == a[1..] + b;
    }
  }

  /** Slots are conserved by every queue operation: free, queued and popped
      slots always add up to the capacity the queue was created with. */
  lemma SlotsConserved(q: QueueState, r: Request)
    ensures CanEnqueue(q) ==>
              Enqueued(q, r).freeSlots + SlotsHeld(Enqueued(q, r).requests) == q.freeSlots + SlotsHeld(q.requests)
    ensures CanPop(q) ==>
              Popped(q).freeSlots + SlotsHeld(Popped(q).requests) + SlotOf(q.requests[0])
              == q.freeSlots + SlotsHeld(q.requests)
    ensures Detaching(q).freeSlots + SlotsHeld(Detaching(q).requests) == q.freeSlots + SlotsHeld(q.requests)
    ensures Cancelled(q).freeSlots + SlotsHeld(Cancelled(q).requests) == q.freeSlots + SlotsHeld(q.requests)
    ensures WorkerClosed(q).freeSlots + SlotsHeld(WorkerClosed(q).requests) == q.freeSlots + SlotsHeld(q.requests)
  {
    SlotsHeldAppend(q.requests, [r.(holdsSlot := true)]);
    assert SlotsHeld([r.(holdsSlot := true)]) == 1;
    assert SlotsHeld([DETACH]) == 0;
  }

  datatype Admission = Admitted | QueueClosed | WouldWait
  datatype Received = Popping(request: Request) | ReceiveNone | ReceiveWait

  class UsbWriteQueue {
    var requests: seq<Request>
    var accepting: bool
    var cancelled: bool
    var workerClosed: bool
    var freeSlots: nat

    ghost function State(): QueueState reads this {
      QueueState(requests, accepting, cancelled, workerClosed, freeSlots)
    }

    constructor (capacity: nat)
      ensures State() == Empty(capacity)
    {
      requests, accepting, cancelled, workerClosed, freeSlots := [], true, false, false, capacity;
    }

    // `WouldWait` is the caller still waiting for a slot of an open queue.
    method Enqueue(phase: Phase, lane: Lane, awaitsDetach: bool) returns (r: Admission)
      modifies this
      ensures r.Admitted? <==> CanEnqueue(old(State()))
      ensures r.WouldWait? <==> old(accepting) && old(freeSlots) == 0
      ensures State() == if r.Admitted? then Enqueued(old(State()), Request(phase, lane, awaitsDetach, true))
                         else old(State())
    {
      if !accepting {
        return QueueClosed;
      }
      if freeSlots == 0 {
        return WouldWait;
      }
      freeSlots := freeSlots - 1;
      if cancelled || workerClosed {
        freeSlots := freeSlots + 1;
        return QueueClosed;
      }
      requests := requests + [Request(phase, lane, awaitsDetach, true)];
      return Admitted;
    }

    method BeginDetach() returns (accepted: bool)
      modifies this
      ensures accepted == CanDetach(old(State()))
      ensures State() == if accepted then Detaching(old(State())) else old(State())
    {
      if cancelled || workerClosed {
        return false;
      }
      accepting := false;
      Clear();
      requests := [DETACH];
      return true;
    }

    // One pass of the receive loop over the request list. The background lane
    // is offered only in the `ReceiveWait` case.
    method Receive() returns (r: Received)
      modifies this
      ensures r.Popping? <==> CanPop(old(State()))
      ensures r.Popping? ==> r.request == old(requests)[0] && State() == Popped(old(State()))
      ensures !r.Popping? ==> State() == old(State())
      ensures r.ReceiveNone? <==> old(cancelled) || (old(requests) == [] && old(workerClosed))
    {
      if cancelled {
        return ReceiveNone;
      }
      if requests != [] {
        r := Popping(requests[0]);
        requests := requests[1..];
        return;
      }
      return if workerClosed then ReceiveNone else ReceiveWait;
    }

    method CancelAndWake()
      modifies this
      ensures State() == Cancelled(old(State()))
    {
      accepting, cancelled := false, true;
      Clear();
    }

    method MarkWorkerClosed()
      modifies this
      ensures State() == WorkerClosed(old(State()))
    {
      accepting, workerClosed := false, true;
      Clear();
    }

    // Drops the queued requests front to back; each gives its slot back.
    method Clear()
      modifies this`requests, this`freeSlots
      ensures State() == Cleared(old(State()))
    {
      while requests != []
        invariant freeSlots + SlotsHeld(requests) == old(freeSlots) + SlotsHeld(old(requests))
        decreases |requests|
      {
        freeSlots := freeSlots + SlotOf(requests[0]);
        requests := requests[1..];
      }
    }
  }
}
