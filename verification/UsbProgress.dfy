/**
 The safety results do not hold by nothing happening: from every idle state of an
 interface, some run delivers every packet sent so far.
 */
module UsbProgress {
  import opened Basics
  import opened UsbTxGate
  import opened UsbWriteQueue
  import opened UsbInterface
  import opened UsbDelivery
  import UsbPermits

  // A quiet line that takes packets, behind an open gate.
  predicate Quiet(ss: Session) {
    && ss.line.queue.requests == [] && ss.line.queue.freeSlots > 0
    && ss.line.queue.accepting && !ss.line.queue.cancelled && !ss.line.queue.workerClosed
    && ss.line.writer == Looping(false) && ss.line.running && ss.line.detach.None?
    && Admitting(ss.radio)
  }

  // Packets sent or taken that are not yet transferred.
  function Undelivered(s: Interface): int {
    |s.channel.sent| - s.channel.received + |s.ledger.taken| - |s.ledger.transferred|
  }

  lemma Connect(actions: seq<Action>, s: Interface, flowControl: bool) returns (longer: seq<Action>, after: Interface)
    requires Reaches(actions, s) && s.session.None? && !s.finished
    ensures Reaches(longer, after) && after == s.(session := after.session)
    ensures after.session.Some? && Quiet(after.session.value) && after.session.value.pump == Top
    ensures after.session.value.radio.flowControl == flowControl
    ensures after.session.value.radio.log == [Observe(0, true, OtherFrame)]
  {
    hide Reaches;
    longer, after := Extend(actions, s, Open(flowControl, 1, 0));
    longer, after := Extend(longer, after, Driver(StartPump));
    longer, after := Extend(longer, after, Driver(ObserveFrame(0, true, OtherFrame)));
  }

  // The pump has checked its pending packet, which is still to be transferred.
  predicate HasNext(s: Interface) {
    && s.session.Some? && Quiet(s.session.value) && s.session.value.pump == Checked
    && s.ledger.pending == Some(|s.ledger.transferred|)
  }

  // A new packet is taken from the channel where none is pending.
  lemma ReceiveNext(actions: seq<Action>, s: Interface) returns (longer: seq<Action>, after: Interface)
    requires Reaches(actions, s) && s.session.Some? && Quiet(s.session.value) && s.session.value.pump == Checked
    requires s.ledger.pending.None? && |s.ledger.taken| == |s.ledger.transferred| && s.channel.received < |s.channel.sent|
    requires |s.ledger.taken| !in s.ledger.transferred
    ensures Reaches(longer, after) && HasNext(after) && after.session.value.radio == s.session.value.radio
    ensures after.channel == s.channel.(received := s.channel.received + 1)
    ensures |after.ledger.taken| == |s.ledger.taken| + 1 && after.ledger.transferred == s.ledger.transferred
  {
    hide Reaches;
    longer, after := Extend(actions, s, Pump(Listen));
    longer, after := Extend(longer, after, Pump(TakePayload));
    longer, after := Extend(longer, after, Pump(Check));
  }

  lemma FindNext(actions: seq<Action>, s: Interface) returns (longer: seq<Action>, after: Interface)
    requires Reaches(actions, s) && s.session.Some? && Quiet(s.session.value) && s.session.value.pump == Top
    requires Undelivered(s) > 0
    ensures Reaches(longer, after) && HasNext(after) && after.session.value.radio == s.session.value.radio
    ensures after.channel.sent == s.channel.sent && after.ledger.transferred == s.ledger.transferred
    ensures Undelivered(after) == Undelivered(s)
  {
    RunKeepsDelivery(actions, s);
    var g := s.ledger;
    if g.pending.Some? && g.pending.value < |g.transferred| {
      assert g.transferred[g.pending.value] == g.pending.value;
    }
    hide Reaches, ChannelInv, PumpInv;
    longer, after := Extend(actions, s, Pump(Check));
    if after.ledger.pending.None? {
      longer, after := ReceiveNext(longer, after);
    }
  }

  // The writer holds the pending packet, with the gate open to it.
  predicate HoldsNext(s: Interface) {
    && s.session.Some? && s.ledger.pending == Some(|s.ledger.transferred|)
    && var ss := s.session.value;
       && ss.line.queue.requests == [] && ss.line.queue.accepting && !ss.line.queue.cancelled && !ss.line.queue.workerClosed
       && ss.line.writer == Holding(Request(Packet, Ordinary(|s.ledger.transferred|), false, true), false, false)
       && ss.line.running && ss.line.detach.None? && Admitting(ss.radio)
       && ss.pump == AwaitingAck(|s.ledger.transferred|)
  }

  lemma PopNext(actions: seq<Action>, s: Interface) returns (longer: seq<Action>, after: Interface)
    requires Reaches(actions, s) && HasNext(s)
    ensures Reaches(longer, after) && HoldsNext(after) && after.session.value.radio == s.session.value.radio
    ensures after.ledger == s.ledger && after.channel == s.channel
  {
    hide Reaches;
    longer, after := Extend(actions, s, Pump(Offer));
    longer, after := Extend(longer, after, Pump(EnqueuePacket));
    longer, after := Extend(longer, after, Writer(Receive));
  }

  // ... and starts to write it ...
  lemma StartNext(actions: seq<Action>, s: Interface) returns (longer: seq<Action>, after: Interface)
    requires Reaches(actions, s) && HoldsNext(s) && !s.session.value.radio.flowControl
    ensures Reaches(longer, after) && after.session.Some? && after.channel == s.channel && after.ledger == s.ledger
    ensures var was, ss := s.session.value, after.session.value;
            && ss.line.writer == Writing(was.line.writer.request, false) && ss.line.wire != []
            && ss.line.queue == was.line.queue && ss.line.running && ss.line.detach.None?
            && !ss.radio.flowControl && Admitting(ss.radio) && ss.pump == was.pump
  {
    hide Reaches;
    longer, after := Extend(actions, s, Writer(AskGate));
    longer, after := Extend(longer, after, Writer(BeginWrite));
  }

  // ... and completes it in time.
  lemma WriteNext(actions: seq<Action>, s: Interface) returns (longer: seq<Action>, after: Interface)
    requires Reaches(actions, s) && HoldsNext(s) && !s.session.value.radio.flowControl
    ensures Reaches(longer, after) && after.channel == s.channel
    ensures after.ledger == s.ledger.(transferred := s.ledger.transferred + [|s.ledger.transferred|])
    ensures after.session.Some? && Quiet(after.session.value) && after.session.value.pump == Top
    ensures !after.session.value.radio.flowControl
  {
    longer, after := StartNext(actions, s);
    hide Reaches;
    longer, after := Extend(longer, after, Writer(FinishWrite(Done)));
    longer, after := Extend(longer, after, Pump(Acknowledged));
  }

  lemma {:induction false} DeliverAll(actions: seq<Action>, s: Interface) returns (longer: seq<Action>, after: Interface)
    requires Reaches(actions, s) && s.session.Some? && Quiet(s.session.value) && s.session.value.pump == Top
    requires !s.session.value.radio.flowControl
    ensures Reaches(longer, after) && after.channel.sent == s.channel.sent && Undelivered(after) <= 0
    decreases Undelivered(s)
  {
    longer, after := actions, s;
    if Undelivered(s) > 0 {
      longer, after := FindNext(longer, after);
      longer, after := PopNext(longer, after);
      longer, after := WriteNext(longer, after);
      longer, after := DeliverAll(longer, after);
    }
  }

  /** Every interface that is between generations and not finished can deliver
      everything: some continuation transfers all packets taken, which then are all
      packets sent so far, in order. */
  lemma EverythingCanBeDelivered(actions: seq<Action>, s: Interface) returns (longer: seq<Action>, after: Interface)
    requires Reaches(actions, s) && s.session.None? && !s.finished
    ensures Reaches(longer, after) && after.channel.sent == s.channel.sent
    ensures |after.ledger.transferred| == |after.ledger.taken| && Payloads(after.ledger.taken) == s.channel.sent
  {
    longer, after := Connect(actions, s, false);
    longer, after := DeliverAll(longer, after);
    RunKeepsDelivery(longer, after);
    assert after.channel.sent[..|after.channel.sent|] == after.channel.sent;
  }

  /** A run reaches a popped packet that a detach finds already taken: the case of
      `UsbSessionProofs.PoppedRequestOutlivesDetach`. */
  lemma PoppedPacketIsReachable(payload: Payload, flowControl: bool) returns (actions: seq<Action>, s: Interface)
    ensures Reaches(actions, s) && s.session.Some?
    ensures var l := s.session.value.line;
            && l.writer.Holding? && l.writer.request.lane.Ordinary? && CanDetach(l.queue) && l.detach.None?
            && !OutOfTurn(l.writer) && !l.writer.admitted && Admitting(s.session.value.radio)
    ensures var r := s.session.value.radio; r.flowControl == flowControl && r.log == [Observe(0, true, OtherFrame)]
  {
    actions, s := [], Init();
    actions, s := Extend(actions, s, Send(payload));
    actions, s := Connect(actions, s, flowControl);
    actions, s := FindNext(actions, s);
    actions, s := PopNext(actions, s);
  }

  /** With flow control and without any flow frame a run also reaches an ordinary
      packet that the gate has admitted and the writer has not yet written: the case
      of `UsbPermits.HeldPacketOutlivesLoss`. */
  lemma AdmittedPacketIsReachable(payload: Payload) returns (actions: seq<Action>, s: Interface)
    ensures Reaches(actions, s) && UsbPermits.HoldsWritable(s)
    ensures var ss := s.session.value;
            && ss.line.writer.request.lane.Ordinary? && ss.radio.flowControl
            && !ss.radio.gate.closed && ss.radio.gate.ready && ss.radio.log == [Observe(0, true, OtherFrame), Take]
  {
    actions, s := PoppedPacketIsReachable(payload, true);
    hide Reaches;
    actions, s := Extend(actions, s, Writer(AskGate));
  }

  // ---------------------------------------------------------------------
  // The lanes and the pump, wherever they are
  // ---------------------------------------------------------------------

  /** A background packet leaves its slot exactly when it is written in time. Written
      late it counts as transferred and keeps the slot; a broken write changes nothing. */
  lemma BackgroundOutcome(actions: seq<Action>, s: Interface, id: nat, outcome: Outcome)
    returns (longer: seq<Action>, after: Interface)
    requires Reaches(actions, s) && s.session.Some? && s.session.value.line.writer.Writing?
    requires s.session.value.line.writer.request.lane == Background(id)
    ensures longer == actions + [Writer(FinishWrite(outcome))] && Reaches(longer, after)
    ensures var was, lane := s.background, after.background;
            && (outcome == Done ==> lane == was.(slot := None, transferred := was.transferred + [id], retired := was.retired + [id]))
            && (outcome == Late ==> lane == was.(transferred := was.transferred + [id], late := was.late + [id]))
            && (outcome == Broken ==> lane == was)
  {
    longer, after := Extend(actions, s, Writer(FinishWrite(outcome)));
  }

  /** A pump that waits can always look again; the look retires a transferred packet
      and loses none. */
  lemma PumpComesRound(actions: seq<Action>, s: Interface) returns (longer: seq<Action>, after: Interface)
    requires Reaches(actions, s) && s.session.Some?
    requires s.session.value.pump.Checked? || s.session.value.pump.WaitingForPayload?
    ensures longer == actions + [Pump(Retry), Pump(Check)] && Reaches(longer, after)
    ensures after.session == Some(s.session.value.(pump := Checked)) && after.channel == s.channel
    ensures after.ledger.pending == None || after.ledger.pending == s.ledger.pending
    ensures s.ledger.pending.Some? ==>
              (after.ledger.pending == None <==> s.ledger.pending.value in s.ledger.transferred)
  {
    longer, after := Extend(actions, s, Pump(Retry));
    longer, after := Extend(longer, after, Pump(Check));
  }

  /** Once the application has closed its channel and all of it was received, a pump with
      nothing pending can end, and its gate is closed with it. */
  lemma ClosedApplicationEndsPump(actions: seq<Action>, s: Interface) returns (longer: seq<Action>, after: Interface)
    requires Reaches(actions, s) && s.session.Some? && s.ledger.pending == None
    requires s.session.value.pump.Checked? || s.session.value.pump.WaitingForPayload?
    requires s.channel.closed && s.channel.received == |s.channel.sent|
    ensures longer == actions + [Pump(EndPump(ApplicationClosed, 0))] && Reaches(longer, after) && after.session.Some?
    ensures after.session.value.pump == PumpEnded(ApplicationClosed) && !Admitting(after.session.value.radio)
    ensures after.ledger == s.ledger
  {
    longer, after := Extend(actions, s, Pump(EndPump(ApplicationClosed, 0)));
  }

  /** A station identification can go out whenever the gate admits and nothing is
      pending; it takes a place of its own and no packet of the application. */
  lemma BeaconCanBeQueued(actions: seq<Action>, s: Interface) returns (longer: seq<Action>, after: Interface)
    requires Reaches(actions, s) && s.session.Some? && s.session.value.pump.Checked? && s.ledger.pending == None
    requires Admitting(s.session.value.radio) && CanEnqueue(s.session.value.line.queue)
    ensures longer == actions + [Pump(Beacon), Pump(EnqueuePacket)] && Reaches(longer, after) && after.session.Some?
    ensures after.ledger.taken == s.ledger.taken + [StationId] && after.channel == s.channel
    ensures after.ledger.pending == Some(|s.ledger.taken|)
    ensures after.session.value.line.queue.requests ==
            s.session.value.line.queue.requests + [Request(Packet, Ordinary(|s.ledger.taken|), false, true)]
  {
    longer, after := Extend(actions, s, Pump(Beacon));
    longer, after := Extend(longer, after, Pump(EnqueuePacket));
  }

  // What the pump offered stays pending until its loop comes round.
  predicate OfferInv(s: Interface) {
    s.session.Some? ==>
      var pump := s.session.value.pump;
      && (pump.Offering? || pump.AwaitingAck? ==> s.ledger.pending == Some(pump.token))
      && (pump == PumpEnded(WriterRejected) ==> s.ledger.pending.Some?)
  }

  lemma StepKeepsOffer(s: Interface, a: Action)
    requires OfferInv(s) && Enabled(s, a)
    ensures OfferInv(Apply(s, a))
  {
  }

  lemma {:induction false} RunKeepsOffer(actions: seq<Action>, s: Interface)
    requires Reaches(actions, s)
    ensures OfferInv(s)
    decreases |actions|
  {
    if actions == [] {
    } else {
      var before := Unwind(actions, s);
      RunKeepsOffer(actions[..|actions| - 1], before);
      StepKeepsOffer(before, actions[|actions| - 1]);
      hide OfferInv, Apply, Enabled;
    }
  }

  /** A writer that rejects, before or after the packet is queued, ends the pump; the
      packet stays pending for the next generation. */
  lemma RejectionKeepsPacket(actions: seq<Action>, s: Interface) returns (longer: seq<Action>, after: Interface)
    requires Reaches(actions, s) && s.session.Some?
    requires s.session.value.pump.Offering? || s.session.value.pump.AwaitingAck?
    ensures longer == actions + [Pump(EndPump(WriterRejected, 0))] && Reaches(longer, after) && after.session.Some?
    ensures after.session.value.pump == PumpEnded(WriterRejected) && !Admitting(after.session.value.radio)
    ensures after.ledger == s.ledger && s.ledger.pending == Some(s.session.value.pump.token)
  {
    RunKeepsOffer(actions, s);
    longer, after := Extend(actions, s, Pump(EndPump(WriterRejected, 0)));
  }

  /** And no pump reports a rejection without a packet to show for it. */
  lemma RejectionHasPacket(actions: seq<Action>, s: Interface)
    requires Reaches(actions, s) && s.session.Some? && s.session.value.pump == PumpEnded(WriterRejected)
    ensures s.ledger.pending.Some?
  {
    RunKeepsOffer(actions, s);
  }

  /** A control request of an idle session is written next, without asking the gate. */
  lemma ControlCanBeWritten(actions: seq<Action>, s: Interface, phase: Phase, awaitsDetach: bool)
    returns (longer: seq<Action>, after: Interface)
    requires Reaches(actions, s) && s.session.Some? && s.session.value.line.writer == Looping(false)
    requires s.session.value.line.queue.requests == [] && CanEnqueue(s.session.value.line.queue)
    requires phase != Packet && phase != Detach && (awaitsDetach ==> phase == Initialise)
    ensures Reaches(longer, after) && after.session.Some?
    ensures var was, now := s.session.value, after.session.value;
            && |now.line.wire| == |was.line.wire| + 1 && now.radio == was.radio
            && now.line.wire[|was.line.wire|].request == Request(phase, Control, awaitsDetach, true)
  {
    hide Reaches;
    longer, after := Extend(actions, s, Driver(RequestControl(phase, awaitsDetach)));
    longer, after := Extend(longer, after, Writer(Receive));
    longer, after := Extend(longer, after, Writer(BeginWrite));
  }
}
