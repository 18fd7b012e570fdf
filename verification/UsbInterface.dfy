/**
 One logical Android USB interface over any number of physical generations.

 A state holds the application channel, the pump's single pending packet, the
 background slot, and at most one physical session: writer queue, writer worker,
 transmission gate and pump. Each `Action` is one atomic section of the source
 (a critical section, an atomic, a completed physical write, or one await
 outcome), so a legal sequence of actions is one interleaving of the driver, the
 pump, the writer, the radio and the application.

 Bytes of a write are abstracted to the three results `UsbTransfer.WriteRequest`
 can have: all bytes accepted in time, all bytes accepted but late, or not all
 bytes accepted.
 */
module UsbInterface {
  import opened Basics
  import opened UsbTxGate
  import opened UsbWriteQueue

  type Payload = seq<nat>

  datatype Packet = Application(payload: Payload) | StationId

  // ---------------------------------------------------------------------
  // State
  // ---------------------------------------------------------------------

  datatype Outcome = Done | Late | Broken

  datatype Progress = InFlight | Finished(outcome: Outcome)

  // A request that reached the backend after `started` events of the gate. A
  // packet was admitted by the gate's event number `admitted`.
  datatype Attempt = Attempt(request: Request, progress: Progress, admitted: nat, started: nat)

  datatype WriterExit = Detached | Stopped | Failed | Panicked

  datatype Writer =
    | Looping(detachOnly: bool)
    | Holding(request: Request, detachOnly: bool, admitted: bool)
    | Writing(request: Request, detachOnly: bool)
    | WriterEnded(exit: WriterExit)

  // The first accepted detach: how much had reached the backend by then, and
  // the request the writer had already popped.
  datatype DetachMark = DetachMark(reached: nat, popped: Option<Request>)

  // The writer's side of a session. `wire` is what reached the backend.
  datatype Line = Line(
    queue: QueueState, writer: Writer, wire: seq<Attempt>, running: bool, detach: Option<DetachMark>)

  // The gate with the history of its operations and the number of its latest
  // admission. A permit is unused when its request never reached the backend.
  datatype Radio = Radio(
    flowControl: bool, born: nat, gate: GateState, log: seq<GateEvent>, admission: nat, unusedPermits: nat)

  datatype PumpExit = StopRequested | ApplicationClosed | ReadinessTimedOut | WriterRejected

  datatype Pump =
    | NotStarted
    | Top
    | Checked
    | WaitingForPayload
    | Offering(token: nat)
    | AwaitingAck(token: nat)
    | PumpEnded(pumpExit: PumpExit)

  datatype Ack = NoAck | AckOk | AckErr

  datatype Session = Session(capacity: nat, line: Line, radio: Radio, pump: Pump, ack: Ack)

  // The application channel: everything sent, and how much the pump received.
  datatype Channel = Channel(sent: seq<Payload>, closed: bool, received: nat)

  // Packets in the order the pump took them; a packet's token is its position.
  datatype Ledger = Ledger(taken: seq<Packet>, pending: Option<nat>, transferred: seq<nat>)

  // The background slot and the fate of the packets started from it.
  datatype BackgroundLane = BackgroundLane(
    slot: Option<nat>, started: nat, transferred: seq<nat>, late: seq<nat>, retired: seq<nat>)

  datatype Interface = Interface(
    channel: Channel, ledger: Ledger, background: BackgroundLane, session: Option<Session>, finished: bool)

  function Init(): Interface {
    Interface(Channel([], false, 0), Ledger([], None, []), BackgroundLane(None, 0, [], [], []), None, false)
  }

  // ---------------------------------------------------------------------
  // Actions
  // ---------------------------------------------------------------------

  datatype DriverStep =
    | RequestControl(phase: Phase, awaitsDetach: bool)
    | StartPump
    | ObserveFrame(now: nat, ready: bool, frame: RadioFrame)
    | CloseGate
    | RequestStop
    | BeginDetach

  datatype PumpStep =
    | Check
    | Retry
    | Beacon
    | Listen
    | TakePayload
    | Offer
    | EnqueuePacket
    | Acknowledged
    | EndPump(exit: PumpExit, now: nat)

  datatype WriterStep =
    | Stop
    | Receive
    | ReceiveBackground
    | AskGate
    | BeginWrite
    | FinishWrite(outcome: Outcome)
    | Panic

  datatype Action =
    | Send(payload: Payload)
    | CloseChannel
    | Open(flowControl: bool, capacity: nat, now: nat)
    | EndGeneration(terminal: bool)
    | AbandonStartup
    | Quarantine
    | Driver(driver: DriverStep)
    | Pump(pump: PumpStep)
    | Writer(writer: WriterStep)

  function NewSession(flowControl: bool, capacity: nat, now: nat): Session {
    Session(capacity,
            Line(Empty(capacity), Looping(false), [], true, None),
            Radio(flowControl, now, Fresh(now), [], 0, 0),
            NotStarted, NoAck)
  }

  function GateStep(r: Radio, e: GateEvent): Radio {
    r.(gate := Next(r.flowControl, r.gate, e), log := r.log + [e],
       admission := if e.Take? && Admitting(r) then |r.log| else r.admission)
  }

  predicate Admitting(r: Radio) {
    Admits(r.flowControl, r.gate)
  }

  // ---------------------------------------------------------------------
  // The writer
  // ---------------------------------------------------------------------

  // The worker's guard closes the queue whenever the worker ends.
  function EndWriter(l: Line, exit: WriterExit): Line {
    l.(writer := WriterEnded(exit), queue := WorkerClosed(l.queue))
  }

  // A popped request is dropped unwritten and the worker ends.
  function DropHeld(l: Line, exit: WriterExit): Line
    requires l.writer.Holding? || l.writer.Writing?
  {
    EndWriter(l.(queue := Returned(l.queue, l.writer.request)), exit)
  }

  // `r` is the gate when the write starts.
  function StartWrite(l: Line, r: Radio): Line
    requires l.writer.Holding?
  {
    l.(writer := Writing(l.writer.request, l.writer.detachOnly),
       wire := l.wire + [Attempt(l.writer.request, InFlight, r.admission, |r.log|)])
  }

  function CompleteWrite(l: Line, outcome: Outcome): Line
    requires l.writer.Writing?
  {
    var r := l.writer.request;
    var wire :=
      if l.wire == [] then []
      else l.wire[|l.wire| - 1 := l.wire[|l.wire| - 1].(request := r, progress := Finished(outcome))];
    var logged := l.(wire := wire, queue := Returned(l.queue, r));
    if outcome == Done then
      if r.phase == Detach then EndWriter(logged, Detached)
      else logged.(writer := Looping(l.writer.detachOnly))
    else if r.awaitsDetach then logged.(writer := Looping(true))
    else EndWriter(logged, Failed)
  }

  // After an ambiguous Init failure only a detach may be written.
  predicate OutOfTurn(w: Writer)
    requires w.Holding?
  {
    w.detachOnly && w.request.phase != Detach
  }

  predicate WriterEnabled(ss: Session, w: WriterStep) {
    var l := ss.line;
    match w
    case Stop =>
      || (l.writer.Looping? && (!l.running || l.queue.cancelled || (l.queue.requests == [] && l.queue.workerClosed)))
      || (l.writer.Holding? && !l.running && (l.writer.request.lane.Ordinary? ==> !l.writer.admitted))
    case Receive => l.writer.Looping? && CanPop(l.queue)
    case ReceiveBackground =>
      l.writer.Looping? && !l.queue.cancelled && l.queue.requests == [] && l.queue.accepting
      && !ss.pump.NotStarted? && Admitting(ss.radio)
    case AskGate => l.writer.Holding? && l.writer.request.lane.Ordinary? && !l.writer.admitted
    case BeginWrite => l.writer.Holding? && (l.writer.request.lane.Ordinary? ==> l.writer.admitted)
    case FinishWrite(_) => l.writer.Writing?
    case Panic => !l.writer.WriterEnded?
  }

  function LineStep(l: Line, r: Radio, w: WriterStep, backgroundId: nat): Line {
    match w
    case Stop => if l.writer.Holding? then DropHeld(l, Stopped) else EndWriter(l, Stopped)
    case Receive =>
      if l.writer.Looping? && CanPop(l.queue)
      then l.(queue := Popped(l.queue), writer := Holding(l.queue.requests[0], l.writer.detachOnly, false))
      else l
    case ReceiveBackground =>
      if l.writer.Looping?
      then l.(writer := Holding(Request(Packet, Background(backgroundId), false, false), l.writer.detachOnly, true))
      else l
    case AskGate =>
      if !l.writer.Holding? || !l.writer.request.lane.Ordinary? then l
      else if OutOfTurn(l.writer) || !Admitting(r) then DropHeld(l, Failed)
      else l.(writer := l.writer.(admitted := true))
    case BeginWrite =>
      if !l.writer.Holding? then l
      else if OutOfTurn(l.writer) then DropHeld(l, Failed)
      else StartWrite(l, r)
    case FinishWrite(outcome) => if l.writer.Writing? then CompleteWrite(l, outcome) else l
    case Panic =>
      if l.writer.Holding? || l.writer.Writing? then DropHeld(l, Panicked) else EndWriter(l, Panicked)
  }

  // The gate is asked under the queue lock for the background lane, and on the
  // way to the physical write for an ordinary packet. In both lanes the gate may
  // change between its answer and the write.
  function RadioStep(l: Line, r: Radio, w: WriterStep): Radio {
    match w
    case ReceiveBackground => GateStep(r, Take)
    case AskGate =>
      if l.writer.Holding? && l.writer.request.lane.Ordinary? && !OutOfTurn(l.writer) then GateStep(r, Take) else r
    case BeginWrite =>
      if !l.writer.Holding? then r
      else if OutOfTurn(l.writer) then Discarded(l, r)
      else r
    case Stop => Discarded(l, r)
    case Panic => Discarded(l, r)
    case _ => r
  }

  function Discarded(l: Line, r: Radio): Radio {
    if l.writer.Holding? && l.writer.admitted then r.(unusedPermits := r.unusedPermits + 1) else r
  }

  function AckStep(l: Line, r: Radio, w: WriterStep, ack: Ack): Ack {
    if (w.AskGate? || w.BeginWrite?) && l.writer.Holding? && l.writer.request.lane.Ordinary?
       && (OutOfTurn(l.writer) || (w.AskGate? && !Admitting(r))) then AckErr
    else if w.FinishWrite? && l.writer.Writing? && l.writer.request.lane.Ordinary?
    then (if w.outcome == Done then AckOk else AckErr)
    else ack
  }

  function StartedId(b: BackgroundLane): nat {
    if b.slot.Some? then b.slot.value else b.started
  }

  function WriterSession(b: BackgroundLane, ss: Session, w: WriterStep): Session {
    ss.(line := LineStep(ss.line, ss.radio, w, StartedId(b)),
        radio := RadioStep(ss.line, ss.radio, w),
        ack := AckStep(ss.line, ss.radio, w, ss.ack))
  }

  // The lane of a write that finishes with all its bytes accepted.
  function CompletedLane(l: Line, w: WriterStep): Option<Lane> {
    if w.FinishWrite? && l.writer.Writing? && w.outcome != Broken then Some(l.writer.request.lane) else None
  }

  function LedgerStep(g: Ledger, l: Line, w: WriterStep): Ledger {
    match CompletedLane(l, w)
    case Some(Ordinary(token)) => g.(transferred := g.transferred + [token])
    case _ => g
  }

  // The started packet stays in the background slot until a timely completion.
  function BackgroundStep(b: BackgroundLane, l: Line, w: WriterStep): BackgroundLane {
    if w.ReceiveBackground? then
      b.(slot := Some(StartedId(b)), started := if b.slot.Some? then b.started else b.started + 1)
    else
      match CompletedLane(l, w)
      case Some(Background(id)) =>
        if w.outcome == Done
        then b.(transferred := b.transferred + [id], retired := b.retired + [id], slot := None)
        else b.(transferred := b.transferred + [id], late := b.late + [id])
      case _ => b
  }

  // ---------------------------------------------------------------------
  // The pump
  // ---------------------------------------------------------------------

  predicate PumpEnabled(s: Interface, ss: Session, p: PumpStep) {
    match p
    case Check => ss.pump.Top?
    case Retry => ss.pump.Checked? || ss.pump.WaitingForPayload?
    case Beacon => ss.pump.Checked? && s.ledger.pending.None? && Admitting(ss.radio)
    case Listen => ss.pump.Checked? && s.ledger.pending.None? && Admitting(ss.radio)
    case TakePayload => ss.pump.WaitingForPayload? && s.channel.received < |s.channel.sent|
    case Offer => ss.pump.Checked? && s.ledger.pending.Some? && Admitting(ss.radio)
    case EnqueuePacket => ss.pump.Offering? && CanEnqueue(ss.line.queue)
    case Acknowledged => ss.pump.AwaitingAck? && ss.ack.AckOk?
    case EndPump(exit, now) => !ss.pump.NotStarted? && !ss.pump.PumpEnded? && PumpMayEnd(s, ss, exit, now)
  }

  predicate PumpMayEnd(s: Interface, ss: Session, exit: PumpExit, now: nat) {
    match exit
    case StopRequested => true
    case ApplicationClosed =>
      (ss.pump.Checked? || ss.pump.WaitingForPayload?)
      && s.ledger.pending.None? && s.channel.closed && s.channel.received == |s.channel.sent|
    case ReadinessTimedOut =>
      ss.pump.Checked? && Expired(ss.radio.gate, now)
    case WriterRejected => ss.pump.Offering? || ss.pump.AwaitingAck?
  }

  function PumpSession(s: Interface, ss: Session, p: PumpStep): Session {
    match p
    case Check => ss.(pump := Checked)
    case Retry => ss.(pump := Top)
    case Beacon => ss.(pump := Offering(|s.ledger.taken|))
    case Listen => ss.(pump := WaitingForPayload)
    case TakePayload => ss.(pump := Top)
    case Offer => if s.ledger.pending.Some? then ss.(pump := Offering(s.ledger.pending.value)) else ss
    case EnqueuePacket =>
      if ss.pump.Offering? && CanEnqueue(ss.line.queue)
      then ss.(line := ss.line.(queue := Enqueued(ss.line.queue, Request(Packet, Ordinary(ss.pump.token), false, true))),
               pump := AwaitingAck(ss.pump.token), ack := NoAck)
      else ss
    case Acknowledged => ss.(pump := Top)
    case EndPump(exit, _) => ss.(radio := GateStep(ss.radio, Close), pump := PumpEnded(exit))
  }

  // The top of the pump loop retires a packet whose completion was published.
  function PumpLedger(s: Interface, p: PumpStep): Ledger {
    var g := s.ledger;
    match p
    case Check => if g.pending.Some? && g.pending.value in g.transferred then g.(pending := None) else g
    case Beacon => g.(taken := g.taken + [StationId], pending := Some(|g.taken|))
    case TakePayload =>
      if s.channel.received < |s.channel.sent|
      then g.(taken := g.taken + [Application(s.channel.sent[s.channel.received])], pending := Some(|g.taken|))
      else g
    case _ => g
  }

  // ---------------------------------------------------------------------
  // The driver
  // ---------------------------------------------------------------------

  predicate DriverEnabled(ss: Session, d: DriverStep) {
    match d
    case RequestControl(phase, awaitsDetach) =>
      CanEnqueue(ss.line.queue) && phase != Packet && phase != Detach && (awaitsDetach ==> phase == Initialise)
    case StartPump => ss.pump.NotStarted?
    case BeginDetach => CanDetach(ss.line.queue)
    case _ => true
  }

  function DriverSession(ss: Session, d: DriverStep): Session {
    var l := ss.line;
    match d
    case RequestControl(phase, awaitsDetach) =>
      if CanEnqueue(l.queue)
      then ss.(line := l.(queue := Enqueued(l.queue, Request(phase, Control, awaitsDetach, true))))
      else ss
    case StartPump => ss.(pump := Top)
    case ObserveFrame(now, ready, frame) => ss.(radio := GateStep(ss.radio, Observe(now, ready, frame)))
    case CloseGate => ss.(radio := GateStep(ss.radio, Close))
    case RequestStop => ss.(line := l.(running := false, queue := Cancelled(l.queue)))
    case BeginDetach =>
      ss.(line := l.(queue := Detaching(l.queue), detach := if l.detach.Some? then l.detach else Some(MarkOf(l))))
  }

  function MarkOf(l: Line): DetachMark {
    DetachMark(|l.wire|, if l.writer.Holding? then Some(l.writer.request) else None)
  }

  // A generation ends only after its writer is joined and its pump has ended. A
  // startup that never started a pump may instead be given up, and an unjoined
  // writer ends the interface for good.
  predicate Enabled(s: Interface, a: Action) {
    match a
    case Send(_) => !s.channel.closed
    case CloseChannel => true
    case Open(_, _, _) => s.session.None? && !s.finished
    case EndGeneration(_) =>
      s.session.Some? && s.session.value.line.writer.WriterEnded?
      && (s.session.value.pump.NotStarted? || s.session.value.pump.PumpEnded?)
    case AbandonStartup => s.session.Some? && s.session.value.pump.NotStarted?
    case Quarantine => s.session.Some?
    case Driver(d) => s.session.Some? && DriverEnabled(s.session.value, d)
    case Pump(p) => s.session.Some? && PumpEnabled(s, s.session.value, p)
    case Writer(w) => s.session.Some? && WriterEnabled(s.session.value, w)
  }

  function Apply(s: Interface, a: Action): Interface
    requires Enabled(s, a)
  {
    match a
    case Send(payload) => s.(channel := s.channel.(sent := s.channel.sent + [payload]))
    case CloseChannel => s.(channel := s.channel.(closed := true))
    case Open(flowControl, capacity, now) => s.(session := Some(NewSession(flowControl, capacity, now)))
    case EndGeneration(terminal) => s.(session := None, finished := s.finished || terminal)
    case AbandonStartup => s.(session := None)
    case Quarantine => s.(finished := true)
    case Driver(d) => s.(session := Some(DriverSession(s.session.value, d)))
    case Pump(p) =>
      s.(session := Some(PumpSession(s, s.session.value, p)),
         ledger := PumpLedger(s, p),
         channel := if p.TakePayload? then s.channel.(received := s.channel.received + 1) else s.channel)
    case Writer(w) =>
      s.(session := Some(WriterSession(s.background, s.session.value, w)),
         ledger := LedgerStep(s.ledger, s.session.value.line, w),
         background := BackgroundStep(s.background, s.session.value.line, w))
  }

  // ---------------------------------------------------------------------
  // Runs
  // ---------------------------------------------------------------------

  function Run(actions: seq<Action>): Option<Interface> {
    if actions == [] then Some(Init())
    else
      var before := Run(actions[..|actions| - 1]);
      if before.Some? && Enabled(before.value, actions[|actions| - 1])
      then Some(Apply(before.value, actions[|actions| - 1]))
      else None
  }

  // `s` is the state after the legal run `actions`.
  ghost predicate Reaches(actions: seq<Action>, s: Interface) {
    Run(actions) == Some(s)
  }

  lemma Extend(actions: seq<Action>, s: Interface, a: Action) returns (longer: seq<Action>, after: Interface)
    requires Reaches(actions, s) && Enabled(s, a)
    ensures longer == actions + [a] && after == Apply(s, a) && Reaches(longer, after)
  {
    longer, after := actions + [a], Apply(s, a);
    assert longer[..|longer| - 1] == actions;
  }

  lemma Unwind(actions: seq<Action>, s: Interface) returns (before: Interface)
    requires Reaches(actions, s) && actions != []
    ensures Reaches(actions[..|actions| - 1], before)
    ensures Enabled(before, actions[|actions| - 1]) && s == Apply(before, actions[|actions| - 1])
  {
    before := Run(actions[..|actions| - 1]).value;
  }
}
