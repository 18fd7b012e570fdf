/**
 Flow permits at the level of physical packet writes: which event of the gate
 admitted each write, where the write started, and what the gate saw in between.

 The writer asks the gate once for each packet: for a background packet when it is
 taken from its slot, for an ordinary one on the way to its write. The write comes
 after the answer, without asking again, and the gate may change in between.
 */
module UsbPermits {
  import opened Basics
  import opened UsbTxGate
  import opened UsbWriteQueue
  import opened UsbInterface
  import opened UsbSessionProofs

  predicate IsPacket(a: Attempt) {
    !a.request.lane.Control?
  }

  predicate SpendsAt(r: Radio, i: nat) {
    i < |r.log| && Spends(r.flowControl, r.born, r.log, i)
  }

  // The gate admitted this packet before it started.
  predicate WasAdmitted(a: Attempt, r: Radio) {
    a.admitted < a.started <= |r.log| && SpendsAt(r, a.admitted)
  }

  predicate HoldsAdmitted(w: Writer) {
    w.Holding? && w.admitted
  }

  // Every packet starts before the next one is admitted.
  predicate AdmittedInTurn(wire: seq<Attempt>) {
    forall i, j :: 0 <= i < j < |wire| && IsPacket(wire[i]) && IsPacket(wire[j]) ==> wire[i].started <= wire[j].admitted
  }

  predicate StartedBy(wire: seq<Attempt>, n: nat) {
    forall i :: 0 <= i < |wire| && IsPacket(wire[i]) ==> wire[i].started <= n
  }

  predicate AdmissionInv(l: Line, r: Radio) {
    && RadioInv(r)
    && (forall i :: 0 <= i < |l.wire| && IsPacket(l.wire[i]) ==> WasAdmitted(l.wire[i], r))
    && AdmittedInTurn(l.wire)
    && (HoldsAdmitted(l.writer) ==> SpendsAt(r, r.admission) && StartedBy(l.wire, r.admission))
  }

  lemma SpendsExtend(r: Radio, e: GateEvent, i: nat)
    requires i < |r.log|
    ensures Spends(r.flowControl, r.born, r.log + [e], i) <==> Spends(r.flowControl, r.born, r.log, i)
  {
    assert (r.log + [e])[..i] == r.log[..i];
  }

  // An event of the gate leaves what was admitted before.
  lemma GateStepKeeps(l: Line, r: Radio, e: GateEvent)
    requires AdmissionInv(l, r) && (e.Take? && Admitting(r) ==> !HoldsAdmitted(l.writer))
    ensures AdmissionInv(l, GateStep(r, e))
  {
    var after := GateStep(r, e);
    GateStepCount(r, e);
    forall i | 0 <= i < |r.log|
      ensures SpendsAt(after, i) <==> SpendsAt(r, i)
    {
      SpendsExtend(r, e, i);
    }
  }

  lemma AdmissionSpends(r: Radio)
    requires RadioInv(r) && Admitting(r)
    ensures SpendsAt(GateStep(r, Take), |r.log|)
  {
    assert (r.log + [Take])[..|r.log|] == r.log;
  }

  // A packet that starts was admitted by the latest admission.
  lemma StartKeeps(l: Line, r: Radio)
    requires AdmissionInv(l, r) && l.writer.Holding? && (!l.writer.request.lane.Control? ==> l.writer.admitted)
    ensures AdmissionInv(StartWrite(l, r), r)
  {
  }

  lemma AskKeeps(l: Line, r: Radio, id: nat)
    requires AdmissionInv(l, r) && l.writer.Holding? && l.writer.request.lane.Ordinary? && !l.writer.admitted
    ensures AdmissionInv(LineStep(l, r, AskGate, id), RadioStep(l, r, AskGate))
  {
    if !OutOfTurn(l.writer) {
      GateStepKeeps(l, r, Take);
      if Admitting(r) {
        AdmissionSpends(r);
      }
    }
  }

  lemma TakeBackgroundKeeps(l: Line, r: Radio, id: nat)
    requires AdmissionInv(l, r) && l.writer.Looping? && Admitting(r)
    ensures AdmissionInv(LineStep(l, r, ReceiveBackground, id), GateStep(r, Take))
  {
    GateStepKeeps(l, r, Take);
    AdmissionSpends(r);
  }

  predicate SamePositions(wire: seq<Attempt>, later: seq<Attempt>) {
    |later| == |wire| && forall i :: 0 <= i < |wire| ==>
      && later[i].request == wire[i].request
      && later[i].admitted == wire[i].admitted && later[i].started == wire[i].started
  }

  lemma CompleteKeepsPositions(l: Line, outcome: Outcome)
    requires WireInv(l) && l.writer.Writing?
    ensures SamePositions(l.wire, CompleteWrite(l, outcome).wire)
    ensures !CompleteWrite(l, outcome).writer.Holding?
  {
  }

  lemma CompleteKeeps(l: Line, r: Radio, outcome: Outcome)
    requires AdmissionInv(l, r) && WireInv(l) && l.writer.Writing?
    ensures AdmissionInv(CompleteWrite(l, outcome), r)
  {
    CompleteKeepsPositions(l, outcome);
    hide CompleteWrite, WireInv, SpendsAt, RadioInv;
  }

  lemma WriterKeepsAdmission(ss: Session, w: WriterStep, id: nat)
    requires AdmissionInv(ss.line, ss.radio) && WireInv(ss.line) && WriterEnabled(ss, w)
    ensures AdmissionInv(LineStep(ss.line, ss.radio, w, id), RadioStep(ss.line, ss.radio, w))
  {
    match w
    case ReceiveBackground => TakeBackgroundKeeps(ss.line, ss.radio, id);
    case AskGate => AskKeeps(ss.line, ss.radio, id);
    case BeginWrite => StartKeeps(ss.line, ss.radio);
    case FinishWrite(outcome) => CompleteKeeps(ss.line, ss.radio, outcome);
    case _ =>
  }

  lemma DriverKeepsAdmission(ss: Session, d: DriverStep)
    requires AdmissionInv(ss.line, ss.radio)
    ensures var after := DriverSession(ss, d); AdmissionInv(after.line, after.radio)
  {
    match d
    case ObserveFrame(now, ready, frame) => GateStepKeeps(ss.line, ss.radio, Observe(now, ready, frame));
    case CloseGate => GateStepKeeps(ss.line, ss.radio, Close);
    case _ =>
  }

  lemma PumpKeepsAdmission(s: Interface, ss: Session, p: PumpStep)
    requires AdmissionInv(ss.line, ss.radio)
    ensures var after := PumpSession(s, ss, p); AdmissionInv(after.line, after.radio)
  {
    if p.EndPump? {
      GateStepKeeps(ss.line, ss.radio, Close);
    }
  }

  lemma {:induction false} RunKeepsAdmission(actions: seq<Action>, s: Interface)
    requires Reaches(actions, s)
    ensures s.session.Some? ==> AdmissionInv(s.session.value.line, s.session.value.radio)
    decreases |actions|
  {
    if actions != [] {
      var before := Unwind(actions, s);
      RunKeepsAdmission(actions[..|actions| - 1], before);
      RunKeeps(actions[..|actions| - 1], before);
      match actions[|actions| - 1]
      case Driver(d) => DriverKeepsAdmission(before.session.value, d);
      case Pump(p) => PumpKeepsAdmission(before, before.session.value, p);
      case Writer(w) => WriterKeepsAdmission(before.session.value, w, StartedId(before.background));
      case _ =>
    }
  }

  // ---------------------------------------------------------------------
  // What every run promises of packet writes
  // ---------------------------------------------------------------------

  /** Permits are conserved: packet writes have their own admissions, in the order
      of the writes; admissions beyond those belong to a packet held or dropped
      unwritten; and admissions never outnumber the initial permit plus the
      positive flow frames seen. */
  lemma PacketWritesArePermitted(actions: seq<Action>, s: Interface)
    requires Reaches(actions, s) && s.session.Some? && s.session.value.radio.flowControl
    ensures var ss := s.session.value;
            && (forall i :: 0 <= i < |ss.line.wire| && IsPacket(ss.line.wire[i]) ==> WasAdmitted(ss.line.wire[i], ss.radio))
            && AdmittedInTurn(ss.line.wire)
            && Admissions(ss.radio) == PacketWrites(ss.line.wire) + ss.radio.unusedPermits + HeldPermit(ss.line.writer)
            && Admissions(ss.radio) <= 1 + CountPositive(ss.radio.log)
  {
    RunKeeps(actions, s);
    RunKeepsAdmission(actions, s);
    PermitsAreConserved(s.session.value.radio.born, s.session.value.radio.log);
  }

  /** Each packet write has an admission of its own, before its start: until then no
      close had happened, and the last frame had reported ready. */
  lemma PacketWriteIsAdmitted(actions: seq<Action>, s: Interface, i: nat)
    requires Reaches(actions, s) && s.session.Some?
    requires i < |s.session.value.line.wire| && IsPacket(s.session.value.line.wire[i])
    ensures var a, r := s.session.value.line.wire[i], s.session.value.radio;
            && WasAdmitted(a, r)
            && !Closes(r.log[..a.admitted]) && LastReport(r.log[..a.admitted]) == Some(true)
  {
    RunKeepsAdmission(actions, s);
    var a, r := s.session.value.line.wire[i], s.session.value.radio;
    AdmissionIsOpenAndReady(r.flowControl, r.born, r.log, a.admitted);
  }

  /** Any two packet writes have different admissions, in the order of the writes,
      with a positive flow frame between those admissions; the second packet is
      admitted only after the first write started. */
  lemma PacketWritesFollowFrames(actions: seq<Action>, s: Interface, i: nat, j: nat)
    requires Reaches(actions, s) && s.session.Some? && s.session.value.radio.flowControl
    requires i < j < |s.session.value.line.wire|
    requires IsPacket(s.session.value.line.wire[i]) && IsPacket(s.session.value.line.wire[j])
    ensures var a, b, r := s.session.value.line.wire[i], s.session.value.line.wire[j], s.session.value.radio;
            && a.admitted < a.started <= b.admitted < b.started <= |r.log|
            && exists k :: a.admitted < k < b.admitted && PositiveFlow(r.log, k)
  {
    RunKeepsAdmission(actions, s);
    var a, b, r := s.session.value.line.wire[i], s.session.value.line.wire[j], s.session.value.radio;
    AdmissionsAreSeparated(r.born, r.log, a.admitted, b.admitted);
  }

  /** A packet write that starts after a readiness loss follows a positive flow frame
      seen at or after the loss, or was admitted before the loss. One that starts
      after the gate closed was admitted before. */
  lemma PacketWriteAfterLoss(actions: seq<Action>, s: Interface, i: nat, loss: nat)
    requires Reaches(actions, s) && s.session.Some? && s.session.value.radio.flowControl
    requires i < |s.session.value.line.wire| && IsPacket(s.session.value.line.wire[i])
    requires loss < s.session.value.line.wire[i].started && loss < |s.session.value.radio.log|
    ensures var a, r := s.session.value.line.wire[i], s.session.value.radio;
            && a.admitted < a.started <= |r.log|
            && (LosesReadiness(true, r.born, r.log, loss) ==>
                  a.admitted < loss || exists k :: loss <= k < a.admitted && PositiveFlow(r.log, k))
            && (r.log[loss].Close? ==> a.admitted < loss)
  {
    PacketWriteIsAdmitted(actions, s, i);
    var a, r := s.session.value.line.wire[i], s.session.value.radio;
    assert r.log[a.admitted].Take?;
    assert loss < a.admitted ==> r.log[..a.admitted][loss] == r.log[loss];
    if LosesReadiness(true, r.born, r.log, loss) && loss < a.admitted {
      LossVoidsOldGrant(r.born, r.log, loss, a.admitted);
    }
  }

  /** Only the last packet to start can have outlived its admission so: all earlier
      ones started before the last admission. */
  lemma OneOutlivesAdmission(actions: seq<Action>, s: Interface, i: nat, j: nat, loss: nat)
    requires Reaches(actions, s) && s.session.Some?
    requires i < j < |s.session.value.line.wire|
    requires IsPacket(s.session.value.line.wire[i]) && IsPacket(s.session.value.line.wire[j])
    requires s.session.value.line.wire[j].admitted < loss
    ensures s.session.value.line.wire[i].started < loss
  {
    RunKeepsAdmission(actions, s);
  }

  // ---------------------------------------------------------------------
  // The end of a pump
  // ---------------------------------------------------------------------

  lemma {:induction false} EndedPumpClosesGate(actions: seq<Action>, s: Interface)
    requires Reaches(actions, s)
    ensures s.session.Some? && s.session.value.pump.PumpEnded? ==> s.session.value.radio.gate.closed
    decreases |actions|
  {
    if actions != [] {
      var before := Unwind(actions, s);
      EndedPumpClosesGate(actions[..|actions| - 1], before);
    }
  }

  // Without a new session the log only grows.
  lemma StepGrowsLog(s: Interface, a: Action)
    requires Enabled(s, a) && !a.Open? && Apply(s, a).session.Some?
    ensures s.session.Some? && s.session.value.radio.log <= Apply(s, a).session.value.radio.log
  {
  }

  lemma {:induction false} LogGrows(actions: seq<Action>, s: Interface, more: seq<Action>, t: Interface)
    requires Reaches(actions, s) && Reaches(actions + more, t) && s.session.Some? && t.session.Some?
    requires forall i :: 0 <= i < |more| ==> !more[i].Open?
    ensures s.session.value.radio.log <= t.session.value.radio.log
    decreases |more|
  {
    if more == [] {
      assert actions + more == actions;
    } else {
      var n := |more| - 1;
      var before := Unwind(actions + more, t);
      assert (actions + more)[..|actions| + n] == actions + more[..n] && (actions + more)[|actions| + n] == more[n];
      hide Reaches, Apply, Enabled;
      StepGrowsLog(before, more[n]);
      LogGrows(actions, s, more[..n], before);
    }
  }

  lemma ClosesStays(log: seq<GateEvent>, longer: seq<GateEvent>, n: nat)
    requires log <= longer && |log| <= n <= |longer| && Closes(log)
    ensures Closes(longer[..n])
  {
    var i :| 0 <= i < |log| && log[i].Close?;
    assert longer[..n][i] == log[i];
  }

  /** No packet is admitted in a session whose pump has ended: every admission the
      session ever makes is among the gate's events up to that end. */
  lemma AdmissionsEndWithPump(actions: seq<Action>, s: Interface, more: seq<Action>, t: Interface, j: nat)
    requires Reaches(actions, s) && s.session.Some? && s.session.value.pump.PumpEnded?
    requires Reaches(actions + more, t) && t.session.Some? && forall i :: 0 <= i < |more| ==> !more[i].Open?
    requires SpendsAt(t.session.value.radio, j)
    ensures j < |s.session.value.radio.log|
  {
    EndedPumpClosesGate(actions, s);
    LogGrows(actions, s, more, t);
    RunKeeps(actions, s);
    var was, r := s.session.value.radio, t.session.value.radio;
    ReadyIff(was.flowControl, was.born, was.log);
    if j >= |was.log| {
      ClosesStays(was.log, r.log, j);
    }
    AdmissionIsOpenAndReady(r.flowControl, r.born, r.log, j);
  }

  // ---------------------------------------------------------------------
  // The exceptions happen
  // ---------------------------------------------------------------------

  // Where an admitted packet is held that may still be written.
  predicate HoldsWritable(s: Interface) {
    s.session.Some? && HoldsAdmitted(s.session.value.line.writer) && !OutOfTurn(s.session.value.line.writer)
  }

  // With flow control the first permit needs no flow frame ...
  lemma FirstPermit() returns (actions: seq<Action>, s: Interface)
    ensures Reaches(actions, s) && s.session.Some? && s.background == Init().background
    ensures var ss := s.session.value;
            && ss.line == NewSession(true, 1, 0).line && ss.pump == Top && ss.radio.flowControl
            && ss.radio.log == [Observe(0, true, OtherFrame)] && Admitting(ss.radio)
  {
    actions, s := [], Init();
    assert Reaches(actions, s);
    hide Reaches;
    actions, s := Extend(actions, s, Open(true, 1, 0));
    actions, s := Extend(actions, s, Driver(StartPump));
    actions, s := Extend(actions, s, Driver(ObserveFrame(0, true, OtherFrame)));
  }

  /** ... so such a state is reachable without one. */
  lemma HoldsWritableIsReachable() returns (actions: seq<Action>, s: Interface)
    ensures Reaches(actions, s) && HoldsWritable(s)
    ensures var ss := s.session.value;
            && ss.radio.flowControl && !ss.radio.gate.closed && ss.radio.gate.ready
            && ss.radio.log == [Observe(0, true, OtherFrame), Take]
            && ss.line.queue == Empty(1) && !ss.line.writer.detachOnly && !ss.pump.NotStarted?
  {
    actions, s := FirstPermit();
    hide Reaches;
    actions, s := Extend(actions, s, Writer(ReceiveBackground));
  }

  /** From every state holding such a packet with the gate open and ready, the packet
      can be written after a readiness loss that no frame follows. */
  lemma HeldPacketOutlivesLoss(actions: seq<Action>, s: Interface, now: nat)
    returns (longer: seq<Action>, after: Interface)
    requires Reaches(actions, s) && HoldsWritable(s)
    requires !s.session.value.radio.gate.closed && s.session.value.radio.gate.ready
    ensures longer == actions + [Driver(ObserveFrame(now, false, OtherFrame)), Writer(BeginWrite)]
    ensures Reaches(longer, after) && after.session.Some?
    ensures var was, ss := s.session.value, after.session.value;
            && ss.radio.log == was.radio.log + [Observe(now, false, OtherFrame)]
            && LosesReadiness(ss.radio.flowControl, ss.radio.born, ss.radio.log, |was.radio.log|)
            && |ss.line.wire| == |was.line.wire| + 1
            && ss.line.wire[|was.line.wire|].request == was.line.writer.request
            && ss.line.wire[|was.line.wire|].started == |ss.radio.log|
  {
    RunKeeps(actions, s);
    var r := s.session.value.radio;
    assert (r.log + [Observe(now, false, OtherFrame)])[..|r.log|] == r.log;
    hide Reaches, SessionInv;
    longer, after := Extend(actions, s, Driver(ObserveFrame(now, false, OtherFrame)));
    longer, after := Extend(longer, after, Writer(BeginWrite));
  }

  /** ... and likewise after the gate was closed. */
  lemma HeldPacketOutlivesClose(actions: seq<Action>, s: Interface) returns (longer: seq<Action>, after: Interface)
    requires Reaches(actions, s) && HoldsWritable(s)
    ensures longer == actions + [Driver(CloseGate), Writer(BeginWrite)]
    ensures Reaches(longer, after) && after.session.Some?
    ensures var was, ss := s.session.value, after.session.value;
            && ss.radio.gate.closed && ss.radio.log == was.radio.log + [Close]
            && |ss.line.wire| == |was.line.wire| + 1
            && ss.line.wire[|was.line.wire|].request == was.line.writer.request
            && ss.line.wire[|was.line.wire|].started == |ss.radio.log|
  {
    hide Reaches;
    longer, after := Extend(actions, s, Driver(CloseGate));
    longer, after := Extend(longer, after, Writer(BeginWrite));
  }

  // The packet is written after a positive frame ...
  lemma WriteAfterFrame(actions: seq<Action>, s: Interface, now: nat) returns (longer: seq<Action>, after: Interface)
    requires Reaches(actions, s) && HoldsWritable(s) && !s.session.value.radio.gate.closed
    requires var l := s.session.value.line;
             l.queue.requests == [] && l.queue.accepting && !l.queue.cancelled && !l.writer.detachOnly
    requires !s.session.value.pump.NotStarted?
    ensures Reaches(longer, after) && after.session.Some?
    ensures var was, ss := s.session.value, after.session.value;
            && ss.radio.log == was.radio.log + [Observe(now, true, FlowPermission(true))]
            && |ss.line.wire| == |was.line.wire| + 1 && IsPacket(ss.line.wire[|was.line.wire|])
            && ss.line.wire[|was.line.wire|].started == |ss.radio.log|
            && ss.line.writer == Looping(false) && ss.line.queue.requests == [] && ss.line.queue.accepting
            && !ss.line.queue.cancelled && !ss.pump.NotStarted? && Admitting(ss.radio)
  {
    RunKeeps(actions, s);
    assert s.session.value.line.writer.request.phase != Detach;
    hide Reaches, SessionInv, HoldsWritable;
    longer, after := Extend(actions, s, Driver(ObserveFrame(now, true, FlowPermission(true))));
    longer, after := Extend(longer, after, Writer(BeginWrite));
    longer, after := Extend(longer, after, Writer(FinishWrite(Done)));
  }

  /** A positive frame seen while an admitted packet is held lets the next packet
      start with no flow frame between the two writes. */
  lemma FrameBeforeWriteCountsTwice(actions: seq<Action>, s: Interface, now: nat)
    returns (longer: seq<Action>, after: Interface)
    requires Reaches(actions, s) && HoldsWritable(s) && !s.session.value.radio.gate.closed
    requires var l := s.session.value.line;
             l.queue.requests == [] && l.queue.accepting && !l.queue.cancelled && !l.writer.detachOnly
    requires !s.session.value.pump.NotStarted?
    ensures Reaches(longer, after) && after.session.Some?
    ensures var ss, n := after.session.value, |s.session.value.line.wire|;
            && |ss.line.wire| == n + 2 && IsPacket(ss.line.wire[n]) && IsPacket(ss.line.wire[n + 1])
            && ss.line.wire[n + 1].started == ss.line.wire[n].started + 1 == |ss.radio.log|
            && ss.radio.log[ss.line.wire[n].started] == Take
  {
    longer, after := WriteAfterFrame(actions, s, now);
    hide Reaches;
    longer, after := Extend(longer, after, Writer(ReceiveBackground));
    assert after.session.value.line.writer.Holding? && after.session.value.line.writer.request.lane.Background?;
    longer, after := Extend(longer, after, Writer(BeginWrite));
  }
}
