/**
 The blocking write loop: one request is pushed through short bulk transfers
 until every byte is accepted, a transfer fails, or its deadline leaves no time.

 The backend and the clock may answer anything: their answers are arbitrary
 functions of the call number. Times are microseconds.
 */
module UsbTransfer {
  import opened Basics

  const MIN_TRANSFER_TIMEOUT: nat := 1_000
  const U64: nat := 0x1_0000_0000_0000_0000

  // The signed count of one bulk transfer, or a failure of the call itself.
  datatype Reply = Count(n: int) | BackendError | WrongReturnType

  datatype Failure =
    | Backend
    | WrongType
    | ZeroLength
    | NegativeLength(returned: int)
    | OversizedLength(returned: int, remaining: nat)
    | DeadlineElapsed

  class Clock {
    const readings: nat -> nat
    var taken: nat

    constructor (readings: nat -> nat)
      ensures this.readings == readings && taken == 0
    {
      this.readings := readings;
      taken := 0;
    }

    method Now() returns (now: nat)
      modifies this
      ensures now == readings(old(taken)) && taken == old(taken) + 1
    {
      now := readings(taken);
      taken := taken + 1;
    }
  }

  class UsbWriterBackend {
    const replies: nat -> Reply
    var calls: nat
    var accepted: seq<byte>

    constructor (replies: nat -> Reply)
      ensures this.replies == replies && calls == 0 && accepted == []
    {
      this.replies := replies;
      calls, accepted := 0, [];
    }

    method Transfer(remaining: seq<byte>, timeout: nat) returns (r: Reply)
      modifies this
      ensures r == replies(old(calls)) && calls == old(calls) + 1
      ensures accepted == old(accepted) + if r.Count? && 0 < r.n <= |remaining| then remaining[..r.n] else []
    {
      r := replies(calls);
      calls := calls + 1;
      if r.Count? && 0 < r.n <= |remaining| {
        accepted := accepted + remaining[..r.n];
      }
    }
  }

  // The publication target of one packet write, shared with the pump.
  class PacketWrite {
    const payloadLen: nat
    var transmittedBytes: nat
    var completed: bool

    constructor (payloadLen: nat, transmittedBytes: nat)
      ensures this.payloadLen == payloadLen && this.transmittedBytes == transmittedBytes && !completed
    {
      this.payloadLen := payloadLen;
      this.transmittedBytes := transmittedBytes;
      completed := false;
    }
  }

  // `None` is the refusal of a deadline that leaves less than the minimum. A
  // granted timeout never outlives the deadline.
  function TransferTimeout(deadline: Option<nat>, defaultTimeout: nat, now: nat): (timeout: Option<nat>)
    ensures timeout.None? <==> deadline.Some? && deadline.value < now + MIN_TRANSFER_TIMEOUT
    ensures timeout.Some? ==> timeout.value <= defaultTimeout
    ensures timeout.Some? && deadline.Some? ==> now + timeout.value <= deadline.value
    ensures timeout.Some? && defaultTimeout >= MIN_TRANSFER_TIMEOUT ==> timeout.value >= MIN_TRANSFER_TIMEOUT
  {
    match deadline
    case None => Some(defaultTimeout)
    case Some(limit) =>
      var remaining := if limit > now then limit - now else 0;
      if remaining < MIN_TRANSFER_TIMEOUT then None
      else Some(if defaultTimeout < remaining then defaultTimeout else remaining)
  }

  // How a reply that did not make progress is reported.
  function FailureOf(r: Reply, remaining: nat): Failure {
    match r
    case BackendError => Backend
    case WrongReturnType => WrongType
    case Count(n) => if n < 0 then NegativeLength(n) else if n == 0 then ZeroLength else OversizedLength(n, remaining)
  }

  // What a failure says of the reply that stopped the loop with `left` bytes to go.
  predicate Explains(f: Failure, r: Reply, left: nat) {
    match f
    case Backend => r == BackendError
    case WrongType => r == WrongReturnType
    case ZeroLength => r == Count(0)
    case NegativeLength(n) => r == Count(n) && n < 0
    case OversizedLength(n, remaining) => r == Count(n) && n > left && remaining == left
    case DeadlineElapsed => false
  }

  /** For every backend and clock: the bytes accepted are a prefix of the
      request, offered once each and in order; at most one call is made per byte;
      the packet is published exactly once, if and only if the whole request was
      accepted, even when the result is a late `DeadlineElapsed`; and any other
      failure names the reply or the exhausted deadline that stopped the loop. */
  method WriteRequest(
    backend: UsbWriterBackend, clock: Clock, packet: PacketWrite?,
    bytes: seq<byte>, deadline: Option<nat>, defaultTimeout: nat)
    returns (result: Result<(), Failure>)
    modifies backend, clock, packet
    ensures old(backend.accepted) <= backend.accepted <= old(backend.accepted) + bytes
    ensures backend.calls <= old(backend.calls) + |bytes|
    ensures clock.taken >= old(clock.taken) && (deadline.Some? ==> clock.taken > old(clock.taken))
    ensures var complete := backend.accepted == old(backend.accepted) + bytes;
            && (packet != null ==>
                  && packet.completed == (old(packet.completed) || complete)
                  && packet.transmittedBytes
                     == if complete then (old(packet.transmittedBytes) + packet.payloadLen) % U64
                        else old(packet.transmittedBytes))
            && (complete ==>
                  result == if deadline.Some? && clock.readings(clock.taken - 1) > deadline.value
                            then Err(DeadlineElapsed) else Ok(()))
            && (!complete ==>
                  var left := |bytes| - (|backend.accepted| - |old(backend.accepted)|);
                  || (&& backend.calls > old(backend.calls)
                      && result.Err? && Explains(result.error, backend.replies(backend.calls - 1), left))
                  || (&& deadline.Some? && clock.taken > old(clock.taken) && result == Err(DeadlineElapsed)
                      && deadline.value < clock.readings(clock.taken - 1) + MIN_TRANSFER_TIMEOUT))
  {
    var offset := 0;
    while offset < |bytes|
      invariant 0 <= offset <= |bytes|
      invariant backend.accepted == old(backend.accepted) + bytes[..offset]
      invariant old(backend.calls) <= backend.calls <= old(backend.calls) + offset
      invariant clock.taken >= old(clock.taken)
      invariant packet != null ==>
                  packet.completed == old(packet.completed) && packet.transmittedBytes == old(packet.transmittedBytes)
      decreases |bytes| - offset
    {
      var timeout := Some(defaultTimeout);
      if deadline.Some? {
        var now := clock.Now();
        timeout := TransferTimeout(deadline, defaultTimeout, now);
        if timeout.None? {
          return Err(DeadlineElapsed);
        }
      }
      var remaining := bytes[offset..];
      var reply := backend.Transfer(remaining, timeout.value);
      if !reply.Count? || reply.n <= 0 || reply.n > |remaining| {
        return Err(FailureOf(reply, |remaining|));
      }
      assert bytes[..offset] + remaining[..reply.n] == bytes[..offset + reply.n];
      offset := offset + reply.n;
    }
    assert bytes[..offset] == bytes;
    if packet != null {
      packet.transmittedBytes := (packet.transmittedBytes + packet.payloadLen) % U64;
      packet.completed := true;
    }
    if deadline.Some? {
      var now := clock.Now();
      if now > deadline.value {
        return Err(DeadlineElapsed);
      }
    }
    return Ok(());
  }
}
