/**
 What every run of a USB interface keeps true of packets, across any number of
 physical generations, failures, late completions and stops.
 */
module UsbDelivery {
  import opened Basics
  import opened UsbTxGate
  import opened UsbWriteQueue
  import opened UsbInterface

  // ---------------------------------------------------------------------
  // Ordinary packets
  // ---------------------------------------------------------------------

  function TokenOf(r: Request): seq<nat> {
    if r.lane.Ordinary? then [r.lane.token] else []
  }

  function QueuedTokens(requests: seq<Request>): seq<nat> {
    if requests == [] then [] else TokenOf(requests[0]) + QueuedTokens(requests[1..])
  }

  function WriterToken(w: Writer): seq<nat> {
    if w.Holding? || w.Writing? then TokenOf(w.request) else []
  }

  // The ordinary packets some physical writer could still transfer.
  function Live(l: Line): seq<nat> {
    WriterToken(l.writer) + QueuedTokens(l.queue.requests)
  }

  function Payloads(taken: seq<Packet>): seq<Payload> {
    if taken == [] then []
    else Payloads(taken[..|taken| - 1])
         + if taken[|taken| - 1].Application? then [taken[|taken| - 1].payload] else []
  }

  // The i-th complete transfer is the i-th packet taken, and every packet taken
  // is transferred or pending.
  predicate LedgerInv(g: Ledger) {
    && (forall i :: 0 <= i < |g.transferred| ==> g.transferred[i] == i)
    && |g.transferred| <= |g.taken| <= |g.transferred| + 1
    && (g.pending.None? ==> |g.taken| == |g.transferred|)
    && (g.pending.Some? ==> g.pending.value + 1 == |g.taken|)
  }

  // The application packets taken are the first ones sent.
  predicate ChannelInv(c: Channel, g: Ledger) {
    c.received <= |c.sent| && Payloads(g.taken) == c.sent[..c.received]
  }

  // The pump's place decides what may be live and what is known complete.
  predicate PumpInv(g: Ledger, ss: Session) {
    && (Live(ss.line) != [] ==>
          && (ss.pump.AwaitingAck? || ss.pump.PumpEnded?)
          && g.pending == Some(|g.transferred|) && Live(ss.line) == [|g.transferred|])
    && (ss.pump.AwaitingAck? && ss.ack.AckOk? ==> Live(ss.line) == [])
    && (ss.pump.Checked? && g.pending.Some? ==> g.pending.value == |g.transferred|)
    && (ss.pump.WaitingForPayload? ==> g.pending.None?)
    && (ss.pump.Offering? ==> g.pending == Some(ss.pump.token) && ss.pump.token == |g.transferred|)
  }

  predicate ClosedInv(c: Channel, g: Ledger, ss: Session) {
    ss.pump == PumpEnded(ApplicationClosed) ==> c.closed && g.pending.None? && c.received == |c.sent|
  }

  predicate DeliveryInv(s: Interface) {
    && LedgerInv(s.ledger) && ChannelInv(s.channel, s.ledger)
    && (s.session.Some? ==> PumpInv(s.ledger, s.session.value) && ClosedInv(s.channel, s.ledger, s.session.value))
  }

  lemma {:induction false} QueuedTokensAppend(a: seq<Request>, r: Request)
    ensures QueuedTokens(a + [r]) == QueuedTokens(a) + TokenOf(r)
  {
    if a == [] {
      assert a + [r] == [r];
    } else {
      QueuedTokensAppend(a[1..], r);
      assert (a + [r])[1..] == a[1..] + [r];
    }
  }

  lemma PayloadsAppend(taken: seq<Packet>, p: Packet)
    ensures Payloads(taken + [p]) == Payloads(taken) + if p.Application? then [p.payload] else []
  {
    assert (taken + [p])[..|taken|] == taken;
  }

  // No driver or writer step adds a live packet.
  lemma DriverLive(ss: Session, d: DriverStep)
    ensures Live(DriverSession(ss, d).line) == Live(ss.line)
         || Live(DriverSession(ss, d).line) == WriterToken(ss.line.writer)
  {
    if d.RequestControl? {
      QueuedTokensAppend(ss.line.queue.requests, Request(d.phase, Control, d.awaitsDetach, true));
    } else if d.BeginDetach? {
      assert QueuedTokens([DETACH]) == [];
    }
  }

  lemma PoppedLive(l: Line, r: Radio, id: nat)
    ensures Live(LineStep(l, r, Receive, id)) == Live(l)
  {
    if l.writer.Looping? && CanPop(l.queue) {
      assert QueuedTokens(l.queue.requests) == TokenOf(l.queue.requests[0]) + QueuedTokens(l.queue.requests[1..]);
    }
  }

  lemma WriterLive(l: Line, r: Radio, w: WriterStep, id: nat)
    ensures Live(LineStep(l, r, w, id)) == Live(l)
         || Live(LineStep(l, r, w, id)) == []
         || (w.FinishWrite? && l.writer.Writing? && Live(LineStep(l, r, w, id)) == QueuedTokens(l.queue.requests))
         || Live(LineStep(l, r, w, id)) == WriterToken(l.writer)
  {
    match w
    case Receive => PoppedLive(l, r, id);
    case FinishWrite(outcome) =>
      if l.writer.Writing? {
        CompleteLeaves(l, outcome);
        hide CompleteWrite;
        assert Live(LineStep(l, r, w, id)) == QueuedTokens(CompleteWrite(l, outcome).queue.requests);
      }
    case _ => OtherLive(l, r, w, id);
  }

  lemma EndLive(l: Line, exit: WriterExit)
    ensures Live(EndWriter(l, exit)) == []
    ensures l.writer.Holding? || l.writer.Writing? ==> Live(DropHeld(l, exit)) == []
  {
  }

  lemma OtherLive(l: Line, r: Radio, w: WriterStep, id: nat)
    requires !w.Receive? && !w.FinishWrite?
    ensures Live(LineStep(l, r, w, id)) == Live(l) || Live(LineStep(l, r, w, id)) == []
  {
    EndLive(l, if w.Stop? then Stopped else if w.Panic? then Panicked else Failed);
    hide RadioStep, Admitting, DropHeld, EndWriter, QueuedTokens;
  }

  lemma DriverKeepsPump(g: Ledger, ss: Session, d: DriverStep)
    requires PumpInv(g, ss) && DriverEnabled(ss, d)
    ensures PumpInv(g, DriverSession(ss, d))
  {
    DriverLive(ss, d);
  }

  lemma PumpKeepsPump(s: Interface, ss: Session, p: PumpStep)
    requires LedgerInv(s.ledger) && PumpInv(s.ledger, ss) && PumpEnabled(s, ss, p)
    ensures LedgerInv(PumpLedger(s, p)) && PumpInv(PumpLedger(s, p), PumpSession(s, ss, p))
  {
    var g := s.ledger;
    if p.EnqueuePacket? {
      QueuedTokensAppend(ss.line.queue.requests, Request(Packet, Ordinary(ss.pump.token), false, true));
    } else if p.Check? && g.pending.Some? && g.pending.value < |g.transferred| {
      assert g.transferred[g.pending.value] == g.pending.value;
    }
  }

  lemma PumpKeepsChannel(s: Interface, p: PumpStep)
    requires ChannelInv(s.channel, s.ledger) && (p.TakePayload? ==> s.channel.received < |s.channel.sent|)
    ensures ChannelInv(if p.TakePayload? then s.channel.(received := s.channel.received + 1) else s.channel,
                       PumpLedger(s, p))
  {
    if p.TakePayload? {
      PayloadsAppend(s.ledger.taken, Application(s.channel.sent[s.channel.received]));
    } else if p.Beacon? {
      PayloadsAppend(s.ledger.taken, StationId);
    }
  }

  lemma CompleteLeaves(l: Line, outcome: Outcome)
    requires l.writer.Writing?
    ensures var after := CompleteWrite(l, outcome);
            && !after.writer.Holding? && !after.writer.Writing?
            && (after.queue.requests == [] || after.queue.requests == l.queue.requests)
  {
  }

  lemma FinishKeepsPump(g: Ledger, ss: Session, outcome: Outcome, b: BackgroundLane)
    requires LedgerInv(g) && PumpInv(g, ss) && ss.line.writer.Writing?
    ensures LedgerInv(LedgerStep(g, ss.line, FinishWrite(outcome)))
    ensures PumpInv(LedgerStep(g, ss.line, FinishWrite(outcome)), WriterSession(b, ss, FinishWrite(outcome)))
  {
    var l, w := ss.line, FinishWrite(outcome);
    var tail, after := QueuedTokens(l.queue.requests), WriterSession(b, ss, w);
    CompleteLeaves(l, outcome);
    assert Live(after.line) == QueuedTokens(after.line.queue.requests);
    assert after.pump == ss.pump;
    if l.writer.request.lane.Ordinary? {
      assert Live(l) == [l.writer.request.lane.token] + tail;
      assert Live(l)[0] == l.writer.request.lane.token == |g.transferred| && tail == [];
      assert Live(after.line) == [];
    } else {
      assert Live(l) == tail && after.ack == ss.ack && LedgerStep(g, l, w) == g;
    }
  }

  lemma WriterKeepsPump(g: Ledger, ss: Session, w: WriterStep, b: BackgroundLane)
    requires LedgerInv(g) && PumpInv(g, ss) && WriterEnabled(ss, w)
    ensures LedgerInv(LedgerStep(g, ss.line, w)) && PumpInv(LedgerStep(g, ss.line, w), WriterSession(b, ss, w))
  {
    if w.FinishWrite? {
      FinishKeepsPump(g, ss, w.outcome, b);
    } else {
      WriterLive(ss.line, ss.radio, w, StartedId(b));
    }
  }

  lemma ApplyKeepsDelivery(s: Interface, a: Action)
    requires DeliveryInv(s) && Enabled(s, a)
    ensures DeliveryInv(Apply(s, a))
  {
    match a
    case Driver(d) => DriverKeepsPump(s.ledger, s.session.value, d);
    case Pump(p) =>
      PumpKeepsPump(s, s.session.value, p);
      PumpKeepsChannel(s, p);
    case Writer(w) => WriterKeepsPump(s.ledger, s.session.value, w, s.background);
    case Send(payload) => assert (s.channel.sent + [payload])[..s.channel.received] == s.channel.sent[..s.channel.received];
    case _ =>
  }

  lemma {:induction false} RunKeepsDelivery(actions: seq<Action>, s: Interface)
    requires Reaches(actions, s)
    ensures DeliveryInv(s)
    decreases |actions|
  {
    if actions != [] {
      var before := Unwind(actions, s);
      RunKeepsDelivery(actions[..|actions| - 1], before);
      ApplyKeepsDelivery(before, actions[|actions| - 1]);
    }
  }

  /** Across any number of generations, failures, late completions and stops:
      the i-th complete transfer is the i-th packet taken, so no packet is fully
      transferred twice or out of order; a packet taken and not transferred is
      the pending one; and the application packets transferred, followed by a
      pending one if any, are exactly the first packets sent. */
  lemma PacketsAtMostOnceInOrder(actions: seq<Action>, s: Interface)
    requires Reaches(actions, s)
    ensures var g, c := s.ledger, s.channel;
            && (forall i :: 0 <= i < |g.transferred| ==> g.transferred[i] == i)
            && |g.transferred| <= |g.taken|
            && (forall k :: |g.transferred| <= k < |g.taken| ==> g.pending == Some(k))
            && c.received <= |c.sent|
            && c.sent[..c.received] == Payloads(g.taken[..|g.transferred|]) + Payloads(g.taken[|g.transferred|..])
  {
    RunKeepsDelivery(actions, s);
    LedgerSplits(s.ledger);
  }

  lemma LedgerSplits(g: Ledger)
    requires LedgerInv(g)
    ensures Payloads(g.taken) == Payloads(g.taken[..|g.transferred|]) + Payloads(g.taken[|g.transferred|..])
  {
    var m := |g.transferred|;
    if m == |g.taken| {
      assert g.taken[..m] == g.taken;
    } else {
      assert g.taken == g.taken[..m] + [g.taken[m]] && g.taken[m..] == [g.taken[m]];
      PayloadsAppend(g.taken[..m], g.taken[m]);
    }
  }

  /** A pump that reports the application channel closed has seen every packet
      ever sent completely transferred, in the order sent. */
  lemma ApplicationClosedLosesNothing(actions: seq<Action>, s: Interface)
    requires Reaches(actions, s)
    requires s.session.Some? && s.session.value.pump == PumpEnded(ApplicationClosed)
    ensures |s.ledger.transferred| == |s.ledger.taken| && Payloads(s.ledger.taken) == s.channel.sent
  {
    RunKeepsDelivery(actions, s);
    assert s.channel.sent[..s.channel.received] == s.channel.sent;
  }

  // ---------------------------------------------------------------------
  // The background lane
  // ---------------------------------------------------------------------

  predicate LaneInv(b: BackgroundLane) {
    && Increasing(b.retired)
    && (forall i :: 0 <= i < |b.retired| ==> b.retired[i] < b.started && b.slot != Some(b.retired[i]))
    && (b.slot.Some? ==> b.slot.value + 1 == b.started)
    && multiset(b.transferred) == multiset(b.late) + multiset(b.retired)
    && (b.late == [] ==> b.transferred == b.retired)
  }

  // A started background packet keeps its slot while the writer has it.
  predicate SlotInv(b: BackgroundLane, l: Line) {
    && (forall i :: 0 <= i < |l.queue.requests| ==> !l.queue.requests[i].lane.Background?)
    && ((l.writer.Holding? || l.writer.Writing?) && l.writer.request.lane.Background? ==>
          b.slot == Some(l.writer.request.lane.id))
  }

  predicate BackgroundInv(s: Interface) {
    LaneInv(s.background) && (s.session.Some? ==> SlotInv(s.background, s.session.value.line))
  }

  lemma WriterKeepsBackground(b: BackgroundLane, ss: Session, w: WriterStep)
    requires LaneInv(b) && SlotInv(b, ss.line) && WriterEnabled(ss, w)
    ensures LaneInv(BackgroundStep(b, ss.line, w))
    ensures SlotInv(BackgroundStep(b, ss.line, w), LineStep(ss.line, ss.radio, w, StartedId(b)))
  {
    if w.FinishWrite? {
      CompleteLeaves(ss.line, w.outcome);
      CompletionKeepsLane(b, ss.line, w);
    } else {
      WriterKeepsSlot(b, ss, w);
    }
  }

  lemma CompletionKeepsLane(b: BackgroundLane, l: Line, w: WriterStep)
    requires LaneInv(b) && SlotInv(b, l) && l.writer.Writing? && w.FinishWrite?
    ensures LaneInv(BackgroundStep(b, l, w))
  {
    if l.writer.request.lane.Background? {
      LaneKeeps(b, l.writer.request.lane.id);
    }
  }

  lemma LaneKeeps(b: BackgroundLane, id: nat)
    requires LaneInv(b) && b.slot == Some(id)
    ensures LaneInv(b.(transferred := b.transferred + [id], retired := b.retired + [id], slot := None))
    ensures LaneInv(b.(transferred := b.transferred + [id], late := b.late + [id]))
  {
    var retired := b.(transferred := b.transferred + [id], retired := b.retired + [id], slot := None);
    assert Increasing(retired.retired);
    assert multiset(retired.transferred) == multiset(retired.late) + multiset(retired.retired);
  }

  lemma WriterKeepsSlot(b: BackgroundLane, ss: Session, w: WriterStep)
    requires LaneInv(b) && SlotInv(b, ss.line) && WriterEnabled(ss, w) && !w.FinishWrite?
    ensures LaneInv(BackgroundStep(b, ss.line, w))
    ensures SlotInv(BackgroundStep(b, ss.line, w), LineStep(ss.line, ss.radio, w, StartedId(b)))
  {
  }

  lemma {:induction false} RunKeepsBackground(actions: seq<Action>, s: Interface)
    requires Reaches(actions, s)
    ensures BackgroundInv(s)
    decreases |actions|
  {
    if actions != [] {
      var before := Unwind(actions, s);
      RunKeepsBackground(actions[..|actions| - 1], before);
      match actions[|actions| - 1]
      case Writer(w) => WriterKeepsBackground(before.background, before.session.value, w);
      case _ =>
    }
  }

  /** A background packet is transferred once for every late completion, and
      once more when a timely one retires it; without late completions the lane
      too transfers each packet at most once and in order. */
  lemma BackgroundTransfers(actions: seq<Action>, s: Interface, id: nat)
    requires Reaches(actions, s)
    ensures var b := s.background;
            && multiset(b.transferred)[id] == multiset(b.late)[id] + (if id in b.retired then 1 else 0)
            && (b.late == [] ==> Increasing(b.transferred))
  {
    RunKeepsBackground(actions, s);
    IncreasingOnce(s.background.retired, id);
  }

  lemma {:induction false} IncreasingOnce(ids: seq<nat>, id: nat)
    requires Increasing(ids)
    ensures multiset(ids)[id] == if id in ids then 1 else 0
  {
    if ids != [] {
      var n := |ids| - 1;
      IncreasingOnce(ids[..n], id);
      assert ids == ids[..n] + [ids[n]];
    }
  }

  const BG_REQUEST: Request := Request(Packet, Background(0), false, false)

  // From an idle interface, a generation can open a ready gate ...
  lemma ReadyGeneration(actions: seq<Action>, s: Interface) returns (longer: seq<Action>, after: Interface)
    requires Reaches(actions, s) && s.session.None? && !s.finished
    ensures Reaches(longer, after) && after.session.Some? && after == s.(session := after.session)
    ensures var ss := after.session.value;
            ss.line == NewSession(false, 1, 0).line && ss.pump == Top && Admitting(ss.radio)
  {
    longer, after := Extend(actions, s, Open(false, 1, 0));
    longer, after := Extend(longer, after, Driver(StartPump));
    longer, after := Extend(longer, after, Driver(ObserveFrame(0, true, OtherFrame)));
  }

  // ... whose writer takes background packet 0 and starts writing it ...
  lemma WritingGeneration(actions: seq<Action>, s: Interface) returns (longer: seq<Action>, after: Interface)
    requires Reaches(actions, s) && s.session.None? && !s.finished && StartedId(s.background) == 0
    ensures Reaches(longer, after) && after.session.Some? && !after.finished && after.session.value.pump == Top
    ensures after.session.value.line.writer == Writing(BG_REQUEST, false)
    ensures after.background.slot == Some(0) && after.background.transferred == s.background.transferred
  {
    longer, after := ReadyGeneration(actions, s);
    longer, after := Extend(longer, after, Writer(ReceiveBackground));
    assert after.session.value.line.writer == Holding(BG_REQUEST, false, true) && after.session.value.pump == Top;
    longer, after := Extend(longer, after, Writer(BeginWrite));
  }

  // ... completes it late, and ends.
  lemma LateGeneration(actions: seq<Action>, s: Interface) returns (longer: seq<Action>, after: Interface)
    requires Reaches(actions, s) && s.session.None? && !s.finished && StartedId(s.background) == 0
    ensures Reaches(longer, after) && after.session.None? && !after.finished
    ensures after.background.slot == Some(0) && after.background.transferred == s.background.transferred + [0]
  {
    longer, after := WritingGeneration(actions, s);
    longer, after := Extend(longer, after, Writer(FinishWrite(Late)));
    assert after.session.value.line.writer == WriterEnded(Failed) && after.session.value.pump == Top;
    longer, after := Extend(longer, after, Pump(EndPump(StopRequested, 0)));
    longer, after := Extend(longer, after, EndGeneration(false));
  }

  /** The at-most-once claim is false of the background lane: a packet whose
      last byte is accepted after the deadline stays in its slot, and each
      further generation can transfer it again, any number of times. */
  lemma {:induction false} BackgroundCanRepeat(times: nat) returns (actions: seq<Action>, s: Interface)
    ensures Reaches(actions, s) && s.session.None? && !s.finished
    ensures s.background.transferred == seq(times, i => 0) && StartedId(s.background) == 0
  {
    if times == 0 {
      actions, s := [], Init();
    } else {
      actions, s := BackgroundCanRepeat(times - 1);
      actions, s := LateGeneration(actions, s);
    }
  }
}
