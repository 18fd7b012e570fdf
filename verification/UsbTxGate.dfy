/**
 The transmission gate of one physical USB generation: protocol readiness, a
 saturating one-packet flow permit, and a bounded readiness episode.

 `UsbTxGate` is the mutable gate. Its methods are specified by the functions on
 `GateState`, and the lemmas below are about every sequence of gate operations.
 Times are milliseconds of one monotone clock.
 */
module UsbTxGate {
  import opened Basics

  const READINESS_DEADLINE: nat := 10_000

  // What decoding one radio frame can tell the gate. Malformed and unrelated
  // frames are `OtherFrame`.
  datatype RadioFrame = FlowPermission(permitted: bool) | Reset | OtherFrame

  datatype GateState = GateState(ready: bool, permit: bool, closed: bool, readinessDeadline: nat)

  function Fresh(now: nat): GateState {
    GateState(false, true, false, now + READINESS_DEADLINE)
  }

  function Observed(s: GateState, now: nat, ready: bool, frame: RadioFrame): GateState {
    if s.closed then s else
      var episode := if s.ready && !ready
                     then s.(readinessDeadline := now + READINESS_DEADLINE, permit := false)
                     else s;
      var updated := episode.(ready := ready);
      match frame
      case FlowPermission(permitted) => updated.(permit := permitted)
      case Reset => updated.(permit := false)
      case OtherFrame => updated
  }

  predicate Admits(flowControl: bool, s: GateState) {
    !s.closed && s.ready && (flowControl ==> s.permit)
  }

  // A not-ready episode of an open gate has lasted the full bound.
  predicate Expired(s: GateState, now: nat) {
    !s.closed && !s.ready && now >= s.readinessDeadline
  }

  function AfterTake(flowControl: bool, s: GateState): GateState {
    if Admits(flowControl, s) && flowControl then s.(permit := false) else s
  }

  function Shut(s: GateState): GateState {
    s.(closed := true, ready := false, permit := false)
  }

  class UsbTxGate {
    const flowControl: bool
    var ready: bool
    var permit: bool
    var closed: bool
    var readinessDeadline: nat
    var online: bool

    ghost function State(): GateState reads this {
      GateState(ready, permit, closed, readinessDeadline)
    }

    // The shared online flag never claims more than protocol readiness.
    ghost predicate Valid() reads this {
      (online <==> ready) && (closed ==> !ready && !permit)
    }

    constructor (flowControl: bool, now: nat)
      ensures Valid() && this.flowControl == flowControl
      ensures State() == Fresh(now)
    {
      this.flowControl := flowControl;
      ready, permit, closed, online := false, true, false, false;
      readinessDeadline := now + READINESS_DEADLINE;
    }

    method Observe(now: nat, protocolReady: bool, frame: RadioFrame)
      requires Valid()
      modifies this
      ensures Valid()
      ensures State() == Observed(old(State()), now, protocolReady, frame)
    {
      if closed {
        return;
      }
      if ready && !protocolReady {
        readinessDeadline := now + READINESS_DEADLINE;
        permit := false;
      }
      ready := protocolReady;
      match frame {
        case FlowPermission(permitted) => permit := permitted;
        case Reset => permit := false;
        case OtherFrame =>
      }
      online := ready;
    }

    method TakePermit() returns (granted: bool)
      requires Valid()
      modifies this
      ensures Valid() && online == old(online)
      ensures granted == Admits(flowControl, old(State()))
      ensures State() == AfterTake(flowControl, old(State()))
    {
      if closed || !ready || (flowControl && !permit) {
        return false;
      }
      if flowControl {
        permit := false;
      }
      return true;
    }

    method Close()
      modifies this
      ensures Valid() && closed && !online
      ensures State() == Shut(old(State()))
    {
      closed, ready, permit, online := true, false, false, false;
    }

    method ReadinessExpired(now: nat) returns (expired: bool)
      ensures expired <==> Expired(State(), now)
    {
      if closed || ready {
        return false;
      }
      return now >= readinessDeadline;
    }
  }

  // ---------------------------------------------------------------------
  // Whole runs
  // ---------------------------------------------------------------------

  datatype GateEvent =
    | Observe(now: nat, ready: bool, frame: RadioFrame)
    | Take
    | Close

  function Next(flowControl: bool, s: GateState, e: GateEvent): GateState {
    match e
    case Observe(now, ready, frame) => Observed(s, now, ready, frame)
    case Take => AfterTake(flowControl, s)
    case Close => Shut(s)
  }

  function StateAfter(flowControl: bool, born: nat, log: seq<GateEvent>): GateState {
    if log == [] then Fresh(born)
    else Next(flowControl, StateAfter(flowControl, born, log[..|log| - 1]), log[|log| - 1])
  }

  function StateAt(flowControl: bool, born: nat, log: seq<GateEvent>, i: nat): GateState
    requires i <= |log|
  {
    StateAfter(flowControl, born, log[..i])
  }

  // One packet was admitted by event i.
  predicate Spends(flowControl: bool, born: nat, log: seq<GateEvent>, i: nat)
    requires i < |log|
  {
    log[i].Take? && Admits(flowControl, StateAt(flowControl, born, log, i))
  }

  predicate PositiveFlow(log: seq<GateEvent>, i: nat)
    requires i < |log|
  {
    log[i].Observe? && log[i].frame == FlowPermission(true)
  }

  // Event i ends a ready episode of an open gate.
  predicate LosesReadiness(flowControl: bool, born: nat, log: seq<GateEvent>, i: nat)
    requires i < |log|
  {
    var s := StateAt(flowControl, born, log, i);
    log[i].Observe? && !s.closed && s.ready && !log[i].ready
  }

  // Event i withdraws the permit; a readiness loss that itself carries a
  // positive flow frame withdraws and renews at once.
  predicate Withdraws(flowControl: bool, born: nat, log: seq<GateEvent>, i: nat)
    requires i < |log|
  {
    || Spends(flowControl, born, log, i)
    || log[i].Close?
    || (LosesReadiness(flowControl, born, log, i) && !PositiveFlow(log, i))
    || (log[i].Observe? && !StateAt(flowControl, born, log, i).closed
        && (log[i].frame == Reset || log[i].frame == FlowPermission(false)))
  }

  predicate Renews(flowControl: bool, born: nat, log: seq<GateEvent>, i: nat)
    requires i < |log|
  {
    PositiveFlow(log, i) && !StateAt(flowControl, born, log, i).closed
  }

  // ---------------------------------------------------------------------
  // What the frames alone say
  // ---------------------------------------------------------------------

  predicate Closes(log: seq<GateEvent>) {
    exists i :: 0 <= i < |log| && log[i].Close?
  }

  // What the last frame reported of readiness, if there was one.
  function LastReport(log: seq<GateEvent>): Option<bool> {
    if log == [] then None
    else if log[|log| - 1].Observe? then Some(log[|log| - 1].ready)
    else LastReport(log[..|log| - 1])
  }

  // When the reports last turned from ready to not ready; at first, the gate's birth.
  function EpisodeStart(born: nat, log: seq<GateEvent>): nat {
    if log == [] then born
    else
      var before, last := log[..|log| - 1], log[|log| - 1];
      if last.Observe? && !last.ready && LastReport(before) == Some(true) then last.now else EpisodeStart(born, before)
  }

  /** The gate is ready exactly if it was never closed and the last frame reported
      ready; not ready, its deadline is the bound after the episode's start. */
  lemma {:induction false} ReadyIff(flowControl: bool, born: nat, log: seq<GateEvent>)
    ensures var s := StateAfter(flowControl, born, log);
            && (s.closed <==> Closes(log))
            && (s.ready <==> !Closes(log) && LastReport(log) == Some(true))
            && (!Closes(log) && !s.ready ==> s.readinessDeadline == EpisodeStart(born, log) + READINESS_DEADLINE)
  {
    if log != [] {
      var n := |log| - 1;
      ReadyIff(flowControl, born, log[..n]);
      ClosesNext(log);
    }
  }

  lemma ClosesNext(log: seq<GateEvent>)
    requires log != []
    ensures Closes(log) <==> Closes(log[..|log| - 1]) || log[|log| - 1].Close?
  {
    var n := |log| - 1;
    if i :| 0 <= i < |log| && log[i].Close? {
      assert i < n ==> log[..n][i].Close?;
    }
    if i :| 0 <= i < n && log[..n][i].Close? {
      assert log[i].Close?;
    }
  }

  /** The gate's readiness has expired exactly if it was never closed, its last
      frame, if any, reported not ready, and the bound has passed since the
      episode's start. */
  lemma ExpiredIff(flowControl: bool, born: nat, log: seq<GateEvent>, now: nat)
    ensures Expired(StateAfter(flowControl, born, log), now) <==>
            && !Closes(log) && LastReport(log) != Some(true)
            && now >= EpisodeStart(born, log) + READINESS_DEADLINE
  {
    ReadyIff(flowControl, born, log);
  }

  lemma StateAtNext(flowControl: bool, born: nat, log: seq<GateEvent>, i: nat)
    requires i < |log|
    ensures StateAt(flowControl, born, log, i + 1)
         == Next(flowControl, StateAt(flowControl, born, log, i), log[i])
  {
    assert log[..i + 1][..i] == log[..i];
  }

  /** With flow control on, the permit is present exactly when every event that
      withdrew it was followed by a positive flow frame seen by the open gate. */
  lemma {:induction false} PermitIff(born: nat, log: seq<GateEvent>, n: nat)
    requires n <= |log|
    ensures StateAt(true, born, log, n).permit <==>
            forall i :: 0 <= i < n && Withdraws(true, born, log, i) ==>
                        exists k :: i < k < n && Renews(true, born, log, k)
    decreases n
  {
    if n > 0 {
      var last := n - 1;
      PermitIff(born, log, last);
      StateAtNext(true, born, log, last);
      var before := StateAt(true, born, log, last);
      if Renews(true, born, log, last) {
        assert StateAt(true, born, log, n).permit;
      } else if Withdraws(true, born, log, last) {
        assert !StateAt(true, born, log, n).permit;
      } else {
        assert StateAt(true, born, log, n).permit == before.permit by {
          ClosedStays(true, born, log, last);
        }
      }
    }
  }

  lemma {:induction false} ClosedStays(flowControl: bool, born: nat, log: seq<GateEvent>, n: nat)
    requires n <= |log|
    ensures StateAt(flowControl, born, log, n).closed <==> exists i :: 0 <= i < n && log[i].Close?
    ensures StateAt(flowControl, born, log, n).closed ==>
            !StateAt(flowControl, born, log, n).ready && !StateAt(flowControl, born, log, n).permit
    decreases n
  {
    if n > 0 {
      ClosedStays(flowControl, born, log, n - 1);
      StateAtNext(flowControl, born, log, n - 1);
      if log[n - 1].Close? {
        assert StateAt(flowControl, born, log, n).closed;
      }
    }
  }

  /** Two admissions are always separated by a positive flow frame. */
  lemma AdmissionsAreSeparated(born: nat, log: seq<GateEvent>, i: nat, j: nat)
    requires i < j < |log|
    requires Spends(true, born, log, i) && Spends(true, born, log, j)
    ensures exists k :: i < k < j && PositiveFlow(log, k)
  {
    PermitIff(born, log, j);
    assert Withdraws(true, born, log, i);
    var k :| i < k < j && Renews(true, born, log, k);
    assert PositiveFlow(log, k);
  }

  /** After a readiness loss, the next admission needs a positive flow frame
      observed at or after the loss. */
  lemma LossVoidsOldGrant(born: nat, log: seq<GateEvent>, loss: nat, j: nat)
    requires loss < j < |log|
    requires LosesReadiness(true, born, log, loss) && Spends(true, born, log, j)
    ensures exists k :: loss <= k < j && PositiveFlow(log, k)
  {
    PermitIff(born, log, j);
    if !PositiveFlow(log, loss) {
      assert Withdraws(true, born, log, loss);
      var k :| loss < k < j && Renews(true, born, log, k);
      assert PositiveFlow(log, k);
    }
  }

  /** A packet is admitted exactly by a question to a gate that was never closed,
      whose last frame reported ready, and, with flow control, whose permit is
      present. */
  lemma AdmissionIsOpenAndReady(flowControl: bool, born: nat, log: seq<GateEvent>, j: nat)
    requires j < |log|
    ensures Spends(flowControl, born, log, j) <==>
            && log[j].Take? && !Closes(log[..j]) && LastReport(log[..j]) == Some(true)
            && (flowControl ==> StateAt(flowControl, born, log, j).permit)
  {
    ReadyIff(flowControl, born, log[..j]);
  }

  function CountSpends(flowControl: bool, born: nat, log: seq<GateEvent>): nat {
    if log == [] then 0
    else CountSpends(flowControl, born, log[..|log| - 1])
         + if Spends(flowControl, born, log, |log| - 1) then 1 else 0
  }

  function CountPositive(log: seq<GateEvent>): nat {
    if log == [] then 0
    else CountPositive(log[..|log| - 1]) + if PositiveFlow(log, |log| - 1) then 1 else 0
  }

  /** Permits are conserved: the initial permit and each positive frame pay for
      at most one admission, and an unspent permit is one of those. */
  lemma {:induction false} PermitsAreConserved(born: nat, log: seq<GateEvent>)
    ensures CountSpends(true, born, log)
          + (if StateAfter(true, born, log).permit then 1 else 0) <= 1 + CountPositive(log)
  {
    if log != [] {
      PermitsAreConserved(born, log[..|log| - 1]);
    }
  }

  /** In every open, not-ready state the deadline is the start of the current
      not-ready episode plus the fixed bound: the gate has been not ready ever
      since that start, so no later frame extended it. */
  lemma {:induction false} DeadlineIsEpisodeStart(flowControl: bool, born: nat, log: seq<GateEvent>, n: nat)
    returns (start: nat, lost: bool)
    requires n <= |log|
    requires !StateAt(flowControl, born, log, n).closed && !StateAt(flowControl, born, log, n).ready
    ensures lost ==> start < n && LosesReadiness(flowControl, born, log, start)
                       && StateAt(flowControl, born, log, n).readinessDeadline
                          == log[start].now + READINESS_DEADLINE
    ensures !lost ==> start == 0
                        && StateAt(flowControl, born, log, n).readinessDeadline == born + READINESS_DEADLINE
    ensures forall k :: (if lost then start + 1 else 0) <= k <= n ==>
                        !StateAt(flowControl, born, log, k).ready
    decreases n
  {
    if n == 0 {
      start, lost := 0, false;
    } else {
      StateAtNext(flowControl, born, log, n - 1);
      if StateAt(flowControl, born, log, n - 1).ready {
        start, lost := n - 1, true;
      } else {
        start, lost := DeadlineIsEpisodeStart(flowControl, born, log, n - 1);
      }
    }
  }
}
