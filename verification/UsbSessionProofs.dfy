/**
 What every run keeps true inside one physical session: the language of
 requests that reach the backend, the effect of a detach, queue slots, and the
 match between packet writes and gate admissions.
 */
module UsbSessionProofs {
  import opened Basics
  import opened UsbTxGate
  import opened UsbWriteQueue
  import opened UsbInterface

  // ---------------------------------------------------------------------
  // The writer's request language
  // ---------------------------------------------------------------------

  // A run of timely successes, none of them a detach.
  predicate Clean(wire: seq<Attempt>) {
    forall i :: 0 <= i < |wire| ==> wire[i].progress == Finished(Done) && wire[i].request.phase != Detach
  }

  // A failed or late Init whose failure leaves only a terminal detach.
  predicate FailedInit(a: Attempt) {
    a.progress.Finished? && a.progress.outcome != Done && a.request.phase == Initialise && a.request.awaitsDetach
  }

  /** What may have reached the backend in one session: successes, then at most
      one attempt of any result; or successes, one failed Init that awaits a
      terminal detach, and at most one detach. */
  predicate Language(wire: seq<Attempt>) {
    var n := |wire|;
    || n == 0
    || Clean(wire[..n - 1])
    || (n >= 2 && Clean(wire[..n - 2]) && FailedInit(wire[n - 2]) && wire[n - 1].request == DETACH)
  }

  predicate WellFormed(r: Request) {
    && (r.awaitsDetach ==> r.phase == Initialise)
    && (r.phase == Detach ==> r == DETACH)
    && (r.phase == Packet <==> !r.lane.Control?)
  }

  predicate Starting(a: Attempt, r: Request) {
    a.request == r && a.progress == InFlight
  }

  predicate WriterWire(writer: Writer, wire: seq<Attempt>) {
    var n := |wire|;
    match writer
    case Looping(false) => Clean(wire)
    case Looping(true) => n >= 1 && Clean(wire[..n - 1]) && FailedInit(wire[n - 1])
    case Holding(r, false, _) => WellFormed(r) && Clean(wire)
    case Holding(r, true, _) => WellFormed(r) && n >= 1 && Clean(wire[..n - 1]) && FailedInit(wire[n - 1])
    case Writing(r, false) => WellFormed(r) && n >= 1 && Clean(wire[..n - 1]) && Starting(wire[n - 1], r)
    case Writing(r, true) =>
      r == DETACH && n >= 2 && Clean(wire[..n - 2]) && FailedInit(wire[n - 2]) && Starting(wire[n - 1], r)
    case WriterEnded(_) => Language(wire)
  }

  predicate WireInv(l: Line) {
    && (forall i :: 0 <= i < |l.queue.requests| ==>
          WellFormed(l.queue.requests[i]) && !l.queue.requests[i].lane.Background?)
    && WriterWire(l.writer, l.wire)
    && (l.writer.Holding? ==>
          && (l.writer.admitted ==> !l.writer.request.lane.Control?)
          && (l.writer.request.lane.Background? ==> l.writer.admitted))
  }

  lemma WireInvLanguage(l: Line)
    requires WireInv(l)
    ensures Language(l.wire)
  {
    var n := |l.wire|;
    if n > 0 && (l.writer.Looping? || l.writer.Holding?) && !l.writer.detachOnly {
      assert Clean(l.wire[..n - 1]);
    }
  }

  lemma CompleteKeepsWire(l: Line, outcome: Outcome)
    requires WireInv(l) && l.writer.Writing?
    ensures WireInv(CompleteWrite(l, outcome))
  {
    var n, wire := |l.wire|, CompleteWrite(l, outcome).wire;
    assert wire[..n - 1] == l.wire[..n - 1];
    if l.writer.detachOnly {
      assert wire[..n - 2] == l.wire[..n - 2];
    }
  }

  lemma StartKeepsWire(l: Line, r: Radio)
    requires WireInv(l) && l.writer.Holding? && !OutOfTurn(l.writer)
    ensures WireInv(StartWrite(l, r))
  {
    var n, wire := |l.wire|, StartWrite(l, r).wire;
    assert wire[..n] == l.wire;
    if l.writer.detachOnly {
      assert wire[..n - 1] == l.wire[..n - 1];
    }
  }

  lemma WriterKeepsWire(l: Line, r: Radio, w: WriterStep, id: nat)
    requires WireInv(l)
    ensures WireInv(LineStep(l, r, w, id))
  {
    WireInvLanguage(l);
    match w
    case BeginWrite =>
      if l.writer.Holding? && !OutOfTurn(l.writer) {
        StartKeepsWire(l, r);
      }
    case FinishWrite(outcome) =>
      if l.writer.Writing? {
        CompleteKeepsWire(l, outcome);
      }
    case _ =>
  }

  // ---------------------------------------------------------------------
  // The effect of a detach
  // ---------------------------------------------------------------------

  // After an accepted detach, what newly reaches the backend is that detach, or
  // first the one request the writer had already popped.
  predicate DetachInv(l: Line) {
    l.detach.Some? ==>
      var mark := l.detach.value;
      && mark.reached <= |l.wire|
      && !l.queue.accepting
      && (forall i :: 0 <= i < |l.queue.requests| ==> l.queue.requests[i] == DETACH)
      && (forall i :: mark.reached <= i < |l.wire| ==>
            || l.wire[i].request == DETACH
            || (i == mark.reached && mark.popped == Some(l.wire[i].request)))
      && (l.writer.Holding? ==>
            || l.writer.request == DETACH
            || (|l.wire| == mark.reached && mark.popped == Some(l.writer.request)))
      && (l.writer.Writing? ==> l.wire != [] && l.wire[|l.wire| - 1].request == l.writer.request)
  }

  lemma StartKeepsDetach(l: Line, r: Radio)
    requires DetachInv(l) && l.writer.Holding?
    ensures DetachInv(StartWrite(l, r))
  {
  }

  lemma CompleteKeepsDetach(l: Line, outcome: Outcome)
    requires DetachInv(l) && l.writer.Writing?
    ensures DetachInv(CompleteWrite(l, outcome))
  {
  }

  lemma WriterKeepsDetach(ss: Session, w: WriterStep, id: nat)
    requires DetachInv(ss.line) && WriterEnabled(ss, w)
    ensures DetachInv(LineStep(ss.line, ss.radio, w, id))
  {
    match w
    case BeginWrite => StartKeepsDetach(ss.line, ss.radio);
    case FinishWrite(outcome) => CompleteKeepsDetach(ss.line, outcome);
    case _ =>
  }

  lemma DriverKeepsDetach(ss: Session, d: DriverStep)
    requires DetachInv(ss.line) && WireInv(ss.line) && DriverEnabled(ss, d)
    ensures DetachInv(DriverSession(ss, d).line)
  {
  }

  // ---------------------------------------------------------------------
  // Queue slots
  // ---------------------------------------------------------------------

  function WriterSlot(w: Writer): nat {
    if w.Holding? || w.Writing? then SlotOf(w.request) else 0
  }

  predicate SlotInv(capacity: nat, l: Line) {
    l.queue.freeSlots + SlotsHeld(l.queue.requests) + WriterSlot(l.writer) == capacity
  }

  lemma EndWriterKeepsSlots(capacity: nat, l: Line, exit: WriterExit)
    requires l.queue.freeSlots + SlotsHeld(l.queue.requests) == capacity
    ensures SlotInv(capacity, EndWriter(l, exit))
  {
    SlotsConserved(l.queue, DETACH);
  }

  lemma DropHeldKeepsSlots(capacity: nat, l: Line, exit: WriterExit)
    requires SlotInv(capacity, l) && (l.writer.Holding? || l.writer.Writing?)
    ensures SlotInv(capacity, DropHeld(l, exit))
  {
    EndWriterKeepsSlots(capacity, l.(queue := Returned(l.queue, l.writer.request)), exit);
  }

  lemma CompleteKeepsSlots(capacity: nat, l: Line, outcome: Outcome)
    requires SlotInv(capacity, l) && l.writer.Writing?
    ensures SlotInv(capacity, CompleteWrite(l, outcome))
  {
    var wire := CompleteWrite(l, outcome).wire;
    var logged := l.(wire := wire, queue := Returned(l.queue, l.writer.request));
    EndWriterKeepsSlots(capacity, logged, Detached);
    EndWriterKeepsSlots(capacity, logged, Failed);
  }

  lemma WriterKeepsSlots(capacity: nat, l: Line, r: Radio, w: WriterStep, id: nat)
    requires SlotInv(capacity, l)
    requires w.Stop? ==> l.writer.Looping? || l.writer.Holding?
    requires w.Panic? ==> !l.writer.WriterEnded?
    ensures SlotInv(capacity, LineStep(l, r, w, id))
  {
    match w
    case Stop =>
      if l.writer.Holding? { DropHeldKeepsSlots(capacity, l, Stopped); } else { EndWriterKeepsSlots(capacity, l, Stopped); }
    case Panic =>
      if l.writer.Looping? { EndWriterKeepsSlots(capacity, l, Panicked); } else { DropHeldKeepsSlots(capacity, l, Panicked); }
    case Receive => SlotsConserved(l.queue, DETACH);
    case AskGate =>
      if l.writer.Holding? { DropHeldKeepsSlots(capacity, l, Failed); }
    case BeginWrite =>
      if l.writer.Holding? { DropHeldKeepsSlots(capacity, l, Failed); }
    case FinishWrite(outcome) =>
      if l.writer.Writing? { CompleteKeepsSlots(capacity, l, outcome); }
    case ReceiveBackground =>
  }

  lemma DriverKeepsSlots(ss: Session, d: DriverStep)
    requires SlotInv(ss.capacity, ss.line)
    ensures SlotInv(ss.capacity, DriverSession(ss, d).line)
  {
    var r := if d.RequestControl? then Request(d.phase, Control, d.awaitsDetach, true) else DETACH;
    SlotsConserved(ss.line.queue, r);
  }

  // ---------------------------------------------------------------------
  // Permits and packet writes
  // ---------------------------------------------------------------------

  function PacketWrites(wire: seq<Attempt>): nat {
    if wire == [] then 0
    else PacketWrites(wire[..|wire| - 1]) + if wire[|wire| - 1].request.lane.Control? then 0 else 1
  }

  function HeldPermit(w: Writer): nat {
    if w.Holding? && w.admitted then 1 else 0
  }

  function Admissions(r: Radio): nat {
    CountSpends(r.flowControl, r.born, r.log)
  }

  predicate RadioInv(r: Radio) {
    r.gate == StateAfter(r.flowControl, r.born, r.log)
  }

  predicate PermitInv(l: Line, r: Radio) {
    RadioInv(r) && Admissions(r) == PacketWrites(l.wire) + r.unusedPermits + HeldPermit(l.writer)
  }

  lemma GateStepCount(r: Radio, e: GateEvent)
    requires RadioInv(r)
    ensures RadioInv(GateStep(r, e))
    ensures Admissions(GateStep(r, e)) == Admissions(r) + if e.Take? && Admitting(r) then 1 else 0
  {
    var log := r.log + [e];
    assert log[..|log| - 1] == r.log;
  }

  lemma PacketWritesAppend(wire: seq<Attempt>, a: Attempt)
    ensures PacketWrites(wire + [a]) == PacketWrites(wire) + if a.request.lane.Control? then 0 else 1
  {
    assert (wire + [a])[..|wire|] == wire;
  }

  lemma PacketWritesUpdate(wire: seq<Attempt>, a: Attempt)
    requires wire != [] && a.request == wire[|wire| - 1].request
    ensures PacketWrites(wire[|wire| - 1 := a]) == PacketWrites(wire)
  {
    assert wire[|wire| - 1 := a][..|wire| - 1] == wire[..|wire| - 1];
  }

  lemma CompleteKeepsPermits(l: Line, r: Radio, outcome: Outcome)
    requires PermitInv(l, r) && WireInv(l) && l.writer.Writing?
    ensures PermitInv(CompleteWrite(l, outcome), r)
  {
    var last := l.wire[|l.wire| - 1].(request := l.writer.request, progress := Finished(outcome));
    PacketWritesUpdate(l.wire, last);
    assert CompleteWrite(l, outcome).wire == l.wire[|l.wire| - 1 := last];
    assert !CompleteWrite(l, outcome).writer.Holding?;
  }

  lemma StartKeepsPermits(l: Line, r: Radio)
    requires PermitInv(l, r) && l.writer.Holding? && (l.writer.admitted <==> !l.writer.request.lane.Control?)
    ensures PermitInv(StartWrite(l, r), r)
  {
    PacketWritesAppend(l.wire, Attempt(l.writer.request, InFlight, r.admission, |r.log|));
  }

  lemma DropKeepsPermits(l: Line, r: Radio, exit: WriterExit)
    requires PermitInv(l, r) && (l.writer.Holding? || l.writer.Writing?)
    ensures PermitInv(DropHeld(l, exit), Discarded(l, r))
  {
  }

  lemma WriterKeepsPermits(ss: Session, w: WriterStep, id: nat)
    requires PermitInv(ss.line, ss.radio) && WireInv(ss.line) && WriterEnabled(ss, w)
    ensures PermitInv(LineStep(ss.line, ss.radio, w, id), RadioStep(ss.line, ss.radio, w))
  {
    var l, r := ss.line, ss.radio;
    match w
    case ReceiveBackground => GateStepCount(r, Take);
    case AskGate =>
      GateStepCount(r, Take);
      DropKeepsPermits(l, r, Failed);
    case BeginWrite =>
      StartKeepsPermits(l, r);
      DropKeepsPermits(l, r, Failed);
    case FinishWrite(outcome) => CompleteKeepsPermits(l, r, outcome);
    case _ =>
      if l.writer.Holding? || l.writer.Writing? {
        DropKeepsPermits(l, r, if w.Stop? then Stopped else Panicked);
      }
  }

  // ---------------------------------------------------------------------
  // All runs
  // ---------------------------------------------------------------------

  predicate SessionInv(ss: Session) {
    WireInv(ss.line) && DetachInv(ss.line) && SlotInv(ss.capacity, ss.line) && PermitInv(ss.line, ss.radio)
  }

  lemma DriverKeeps(ss: Session, d: DriverStep)
    requires SessionInv(ss) && DriverEnabled(ss, d)
    ensures SessionInv(DriverSession(ss, d))
  {
    DriverKeepsDetach(ss, d);
    DriverKeepsSlots(ss, d);
    if d.ObserveFrame? {
      GateStepCount(ss.radio, Observe(d.now, d.ready, d.frame));
    } else if d.CloseGate? {
      GateStepCount(ss.radio, Close);
    }
  }

  lemma PumpKeeps(s: Interface, ss: Session, p: PumpStep)
    requires SessionInv(ss) && PumpEnabled(s, ss, p)
    ensures SessionInv(PumpSession(s, ss, p))
  {
    if p.EnqueuePacket? {
      SlotsConserved(ss.line.queue, Request(Packet, Ordinary(ss.pump.token), false, true));
    } else if p.EndPump? {
      GateStepCount(ss.radio, Close);
    }
  }

  lemma WriterKeeps(b: BackgroundLane, ss: Session, w: WriterStep)
    requires SessionInv(ss) && WriterEnabled(ss, w)
    ensures SessionInv(WriterSession(b, ss, w))
  {
    WriterKeepsWire(ss.line, ss.radio, w, StartedId(b));
    WriterKeepsDetach(ss, w, StartedId(b));
    WriterKeepsSlots(ss.capacity, ss.line, ss.radio, w, StartedId(b));
    WriterKeepsPermits(ss, w, StartedId(b));
  }

  lemma {:induction false} RunKeeps(actions: seq<Action>, s: Interface)
    requires Reaches(actions, s)
    ensures s.session.Some? ==> SessionInv(s.session.value)
    decreases |actions|
  {
    if actions != [] {
      var before := Unwind(actions, s);
      RunKeeps(actions[..|actions| - 1], before);
      match actions[|actions| - 1]
      case Driver(d) => DriverKeeps(before.session.value, d);
      case Pump(p) => PumpKeeps(before, before.session.value, p);
      case Writer(w) => WriterKeeps(before.background, before.session.value, w);
      case _ =>
    }
  }

  /** Writer language, in every run: all attempts before the last are timely
      successes and none is a detach, except that one failed Init that awaits a
      terminal detach may be followed by exactly that detach. */
  lemma WriterLanguage(actions: seq<Action>, s: Interface, i: nat)
    requires Reaches(actions, s) && s.session.Some?
    requires i + 1 < |s.session.value.line.wire|
    ensures var wire := s.session.value.line.wire;
            && wire[i].request.phase != Detach
            && (|| wire[i].progress == Finished(Done)
                || (i + 2 == |wire| && FailedInit(wire[i]) && wire[i + 1].request == DETACH))
  {
    RunKeeps(actions, s);
    var wire := s.session.value.line.wire;
    WireInvLanguage(s.session.value.line);
    if Clean(wire[..|wire| - 1]) {
      assert wire[i] == wire[..|wire| - 1][i];
    } else if i + 2 < |wire| {
      assert wire[i] == wire[..|wire| - 2][i];
    }
  }

  /** Once a detach is accepted, whatever newly reaches the backend is that
      detach, or first the one request the writer had popped before; when it had
      popped none, only the detach. Nothing follows the detach. */
  lemma DetachBarrier(actions: seq<Action>, s: Interface, i: nat)
    requires Reaches(actions, s) && s.session.Some? && s.session.value.line.detach.Some?
    requires s.session.value.line.detach.value.reached <= i < |s.session.value.line.wire|
    ensures var wire, mark := s.session.value.line.wire, s.session.value.line.detach.value;
            && (wire[i].request == DETACH ==> i + 1 == |wire|)
            && (wire[i].request != DETACH ==> i == mark.reached && mark.popped == Some(wire[i].request))
  {
    RunKeeps(actions, s);
    if i + 1 < |s.session.value.line.wire| {
      WriterLanguage(actions, s, i);
    }
  }

  // What the writer still does with a popped request before it writes it.
  function Remaining(w: Writer): seq<Action>
    requires w.Holding?
  {
    (if w.request.lane.Ordinary? && !w.admitted then [Writer(AskGate)] else []) + [Writer(BeginWrite)]
  }

  /** The popped request really can be written after an accepted detach, in every
      reachable state whose writer holds a request it may still write; an ordinary
      packet not yet admitted needs the gate to admit it. */
  lemma PoppedRequestOutlivesDetach(actions: seq<Action>, s: Interface) returns (longer: seq<Action>, after: Interface)
    requires Reaches(actions, s) && s.session.Some?
    requires var l := s.session.value.line;
             && l.writer.Holding? && CanDetach(l.queue) && l.detach.None? && !OutOfTurn(l.writer)
             && (l.writer.request.lane.Ordinary? && !l.writer.admitted ==> Admitting(s.session.value.radio))
    ensures longer == actions + [Driver(BeginDetach)] + Remaining(s.session.value.line.writer)
    ensures Reaches(longer, after) && after.session.Some? && after.session.value.line.detach.Some?
    ensures var l, now := s.session.value.line, after.session.value.line;
            && now.detach.value.reached < |now.wire|
            && now.wire[now.detach.value.reached].request == l.writer.request
  {
    hide Reaches;
    var w := s.session.value.line.writer;
    longer, after := Extend(actions, s, Driver(BeginDetach));
    if w.request.lane.Ordinary? && !w.admitted {
      longer, after := Extend(longer, after, Writer(AskGate));
    }
    longer, after := Extend(longer, after, Writer(BeginWrite));
  }

  /** The write queue is bounded in every run: free slots and the slots of
      queued and popped requests always add up to the capacity. */
  lemma QueueIsBounded(actions: seq<Action>, s: Interface)
    requires Reaches(actions, s) && s.session.Some?
    ensures var ss := s.session.value;
            ss.line.queue.freeSlots + SlotsHeld(ss.line.queue.requests) + WriterSlot(ss.line.writer) == ss.capacity
  {
    RunKeeps(actions, s);
  }

  /** A pump that reports a readiness timeout does so when the current not-ready
      episode of its gate has lasted the full bound, whatever frames arrived. */
  lemma ReadinessTimeoutIsEarned(actions: seq<Action>, s: Interface, now: nat) returns (start: nat, lost: bool)
    requires Reaches(actions, s) && Enabled(s, Pump(EndPump(ReadinessTimedOut, now)))
    ensures var r := s.session.value.radio;
            && (lost ==> start < |r.log| && LosesReadiness(r.flowControl, r.born, r.log, start)
                         && now >= r.log[start].now + READINESS_DEADLINE)
            && (!lost ==> now >= r.born + READINESS_DEADLINE)
            && (forall k :: (if lost then start + 1 else 0) <= k <= |r.log| ==>
                            !StateAt(r.flowControl, r.born, r.log, k).ready)
  {
    RunKeeps(actions, s);
    var r := s.session.value.radio;
    assert r.log[..|r.log|] == r.log;
    start, lost := DeadlineIsEpisodeStart(r.flowControl, r.born, r.log, |r.log|);
  }

  /** Exactly: a checked pump may report the timeout when its gate was never closed,
      the last frame, if any, reported not ready, and the bound has passed since the
      reports turned. */
  lemma ReadinessTimeoutIff(actions: seq<Action>, s: Interface, now: nat)
    requires Reaches(actions, s) && s.session.Some? && s.session.value.pump.Checked?
    ensures var r := s.session.value.radio;
            Enabled(s, Pump(EndPump(ReadinessTimedOut, now))) <==>
            !Closes(r.log) && LastReport(r.log) != Some(true) && now >= EpisodeStart(r.born, r.log) + READINESS_DEADLINE
  {
    RunKeeps(actions, s);
    var r := s.session.value.radio;
    ExpiredIff(r.flowControl, r.born, r.log, now);
  }
}
