/**
 The receive-side barrier around Init: reader worker, writer acknowledgement and
 startup driver, interleaved at every atomic load, store, read and channel step.

 `now` numbers the steps of a run, so it orders the start of each physical read
 against the acknowledgement of the Init write. `strict` selects the capability
 startup, which also waits for a capability response before the barrier.
 */
module UsbStartup {
  import opened Basics

  // What a worker puts on the event channel; a chunk carries the step at which
  // its physical read began.
  datatype Event = Read(began: nat) | WriterExit | ReaderExit

  datatype Reader =
    | LoopTop
    | Reading(began: nat)
    | HaveChunk(began: nat)
    | IdleSeen
    | Pausing
    | PauseLoop
    | Leaving
    | Ending
    | Ended

  datatype Driver =
    | AwaitDetect
    | AwaitCapability
    | AwaitResponse
    | ClearPaused
    | SetRequest
    | AwaitBoundary
    | Drain
    | AwaitInit
    | Resume
    | Ready
    | Closing      // stopped after Ok, still draining the reader's tail
    | Failed
    | Stopped

  datatype State = State(
    strict: bool,
    capacity: nat,
    now: nat,
    running: bool,
    pauseRequested: bool,
    pausedAfterIdle: bool,
    events: seq<Event>,
    reader: Reader,
    driver: Driver,
    initAcknowledged: Option<nat>)

  function Init(strict: bool, capacity: nat): State {
    State(strict, if capacity == 0 then 1 else capacity, 0, true, false, false, [], LoopTop, AwaitDetect, None)
  }

  datatype ReadResult = Data | EmptyData | Idle | ReadError

  datatype Action =
    // reader
    | ReaderLoop
    | ReadReturns(result: ReadResult)
    | SendChunk
    | LoadPauseRequest
    | StorePaused
    | PollPause
    | StoreUnpaused
    | SendReaderExit
    // writer
    | WriterEnds
    | AcknowledgeInit
    // driver
    | DetectAcknowledged
    | CapabilityAcknowledged
    | ResponseAdmitted
    | StorePausedFalse
    | StorePauseRequest
    | SeeBoundary
    | SeeEmpty
    | SeeInitAcknowledged
    | StoreResume
    | Consume
    | Fail
    | StopWorkers
    | GiveUpDrain

  predicate Consumes(d: Driver) {
    d.AwaitResponse? || d.AwaitBoundary? || d.Drain? || d.Ready? || d.Closing?
  }

  // A send waits for a place, or fails at once when the driver has closed its end.
  predicate HasRoom(s: State) {
    |s.events| < s.capacity || s.driver.Stopped?
  }

  function Sending(s: State, e: Event): seq<Event> {
    if s.driver.Stopped? then s.events else s.events + [e]
  }

  predicate Enabled(s: State, a: Action) {
    match a
    case ReaderLoop => s.reader.LoopTop?
    case ReadReturns(_) => s.reader.Reading?
    case SendChunk => s.reader.HaveChunk? && HasRoom(s)
    case LoadPauseRequest => s.reader.IdleSeen?
    case StorePaused => s.reader.Pausing?
    case PollPause => s.reader.PauseLoop?
    case StoreUnpaused => s.reader.Leaving?
    case SendReaderExit => s.reader.Ending? && HasRoom(s)
    case WriterEnds => HasRoom(s)
    case AcknowledgeInit => s.driver.AwaitInit? && s.initAcknowledged.None?
    case DetectAcknowledged => s.driver.AwaitDetect?
    case CapabilityAcknowledged => s.driver.AwaitCapability?
    case ResponseAdmitted => s.driver.AwaitResponse? && s.events != [] && s.events[0].Read?
    case StorePausedFalse => s.driver.ClearPaused?
    case StorePauseRequest => s.driver.SetRequest?
    case SeeBoundary => s.driver.AwaitBoundary? && s.pausedAfterIdle
    case SeeEmpty => s.driver.Drain? && s.events == []
    case SeeInitAcknowledged => s.driver.AwaitInit? && s.initAcknowledged.Some?
    case StoreResume => s.driver.Resume?
    case Consume => Consumes(s.driver) && s.events != []
    case Fail => !s.driver.Ready? && !s.driver.Closing? && !s.driver.Stopped?
    case StopWorkers => s.driver.Failed? || s.driver.Ready?
    case GiveUpDrain => s.driver.Closing?
  }

  function ReaderStep(s: State, a: Action): State
    requires Enabled(s, a)
  {
    match a
    case ReaderLoop => s.(reader := if s.running then Reading(s.now) else Ending)
    case ReadReturns(result) =>
      s.(reader := match result
                   case Data => HaveChunk(s.reader.began)
                   case EmptyData => LoopTop
                   case Idle => IdleSeen
                   case ReadError => Ending)
    case SendChunk =>
      s.(events := Sending(s, Read(s.reader.began)), reader := if s.driver.Stopped? then Ending else LoopTop)
    case LoadPauseRequest => s.(reader := if s.pauseRequested then Pausing else LoopTop)
    case StorePaused => s.(pausedAfterIdle := true, reader := PauseLoop)
    case PollPause => s.(reader := if s.pauseRequested && s.running then PauseLoop else Leaving)
    case StoreUnpaused => s.(pausedAfterIdle := false, reader := LoopTop)
    case SendReaderExit => s.(events := Sending(s, ReaderExit), reader := Ended)
    case _ => s
  }

  // A worker's exit fails a startup; the tail is drained up to the reader's exit.
  function AfterEvent(d: Driver, e: Event): Driver {
    if e.Read? || d.Ready? then d
    else if d.Closing? then (if e.ReaderExit? then Stopped else Closing)
    else Failed
  }

  function DriverStep(s: State, a: Action): State
    requires Enabled(s, a)
  {
    match a
    case WriterEnds => s.(events := Sending(s, WriterExit))
    case AcknowledgeInit => s.(initAcknowledged := Some(s.now))
    case DetectAcknowledged => s.(driver := if s.strict then AwaitCapability else ClearPaused)
    case CapabilityAcknowledged => s.(driver := AwaitResponse)
    case ResponseAdmitted => s.(driver := ClearPaused, events := s.events[1..])
    case StorePausedFalse => s.(driver := SetRequest, pausedAfterIdle := false)
    case StorePauseRequest => s.(driver := AwaitBoundary, pauseRequested := true)
    case SeeBoundary => s.(driver := Drain)
    case SeeEmpty => s.(driver := AwaitInit)
    case SeeInitAcknowledged => s.(driver := Resume)
    case StoreResume => s.(driver := Ready, pauseRequested := false)
    case Consume => s.(events := s.events[1..], driver := AfterEvent(s.driver, s.events[0]))
    case Fail => s.(driver := Failed)
    case StopWorkers =>
      s.(driver := if s.driver.Ready? then Closing else Stopped, running := false, pauseRequested := false)
    case GiveUpDrain => s.(driver := Stopped)
    case _ => s
  }

  predicate ByReader(a: Action) {
    match a
    case ReaderLoop => true
    case ReadReturns(_) => true
    case SendChunk => true
    case LoadPauseRequest => true
    case StorePaused => true
    case PollPause => true
    case StoreUnpaused => true
    case SendReaderExit => true
    case _ => false
  }

  function Apply(s: State, a: Action): State
    requires Enabled(s, a)
  {
    (if ByReader(a) then ReaderStep(s, a) else DriverStep(s, a)).(now := s.now + 1)
  }

  function Run(strict: bool, capacity: nat, actions: seq<Action>): Option<State> {
    if actions == [] then Some(Init(strict, capacity))
    else
      var before := Run(strict, capacity, actions[..|actions| - 1]);
      if before.Some? && Enabled(before.value, actions[|actions| - 1])
      then Some(Apply(before.value, actions[|actions| - 1]))
      else None
  }

  ghost predicate Reaches(strict: bool, capacity: nat, actions: seq<Action>, s: State) {
    Run(strict, capacity, actions) == Some(s)
  }

  // ---------------------------------------------------------------------
  // Invariant
  // ---------------------------------------------------------------------

  predicate BeforeRequest(d: Driver) {
    d.AwaitDetect? || d.AwaitCapability? || d.AwaitResponse? || d.ClearPaused? || d.SetRequest?
  }

  predicate Requesting(d: Driver) {
    d.AwaitBoundary? || d.Drain? || d.AwaitInit? || d.Resume?
  }

  predicate InBarrier(r: Reader) {
    r.Pausing? || r.PauseLoop? || r.Leaving?
  }

  // Flags say where the reader is: before the request it is outside the barrier,
  // during the request it cannot leave, and past the boundary it is inside.
  predicate BarrierInv(s: State) {
    && (BeforeRequest(s.driver) ==> !s.pauseRequested && s.running && !s.pausedAfterIdle && !InBarrier(s.reader))
    && (Requesting(s.driver) ==>
          s.pauseRequested && s.running && !s.reader.Leaving? && (s.pausedAfterIdle ==> s.reader.PauseLoop?))
    && (s.driver.Drain? || s.driver.AwaitInit? || s.driver.Resume? ==> s.reader.PauseLoop? && s.pausedAfterIdle)
  }

  predicate NoReads(events: seq<Event>) {
    forall i :: 0 <= i < |events| ==> !events[i].Read?
  }

  predicate ReadsAfter(s: State, t: nat) {
    && (forall i :: 0 <= i < |s.events| && s.events[i].Read? ==> s.events[i].began > t)
    && (s.reader.Reading? || s.reader.HaveChunk? ==> s.reader.began > t)
  }

  predicate FreshInv(s: State) {
    && (s.initAcknowledged.Some? ==> s.initAcknowledged.value < s.now)
    && (BeforeRequest(s.driver) || s.driver.AwaitBoundary? || s.driver.Drain? ==> s.initAcknowledged.None?)
    && (s.driver.AwaitInit? || s.driver.Resume? ==> NoReads(s.events))
    && (s.driver.Resume? || s.driver.Ready? || s.driver.Closing? ==>
          s.initAcknowledged.Some? && ReadsAfter(s, s.initAcknowledged.value))
  }

  lemma ReaderKeeps(s: State, a: Action)
    requires BarrierInv(s) && FreshInv(s) && Enabled(s, a) && ByReader(a)
    ensures BarrierInv(Apply(s, a)) && FreshInv(Apply(s, a))
  {
  }

  lemma DriverKeepsBarrier(s: State, a: Action)
    requires BarrierInv(s) && Enabled(s, a) && !ByReader(a)
    ensures BarrierInv(Apply(s, a))
  {
  }

  lemma DriverKeepsFresh(s: State, a: Action)
    requires BarrierInv(s) && FreshInv(s) && Enabled(s, a) && !ByReader(a)
    ensures FreshInv(Apply(s, a))
  {
  }

  lemma {:induction false} RunKeeps(strict: bool, capacity: nat, actions: seq<Action>, s: State)
    requires Reaches(strict, capacity, actions, s)
    ensures BarrierInv(s) && FreshInv(s)
    decreases |actions|
  {
    if actions != [] {
      var prefix := actions[..|actions| - 1];
      var before := Run(strict, capacity, prefix).value;
      RunKeeps(strict, capacity, prefix, before);
      if ByReader(actions[|actions| - 1]) {
        ReaderKeeps(before, actions[|actions| - 1]);
      } else {
        DriverKeepsBarrier(before, actions[|actions| - 1]);
        DriverKeepsFresh(before, actions[|actions| - 1]);
      }
    }
  }

  /** Startup freshness, in every interleaving and for both startups: once the
      startup has returned Ok, and still while the reader's tail is drained after a
      stop, the Init write was acknowledged at some step, and every chunk still to
      be consumed, queued or in the reader's hands, comes from a physical read that
      began after that step. */
  lemma StartupIsFresh(strict: bool, capacity: nat, actions: seq<Action>, s: State)
    requires Reaches(strict, capacity, actions, s) && (s.driver.Ready? || s.driver.Closing?)
    ensures s.initAcknowledged.Some?
    ensures forall i :: 0 <= i < |s.events| && s.events[i].Read? ==> s.events[i].began > s.initAcknowledged.value
    ensures s.reader.Reading? || s.reader.HaveChunk? ==> s.reader.began > s.initAcknowledged.value
  {
    RunKeeps(strict, capacity, actions, s);
  }

  /** The event channel never holds more than its capacity, which is at least one. */
  lemma {:induction false} EventsAreBounded(strict: bool, capacity: nat, actions: seq<Action>, s: State)
    requires Reaches(strict, capacity, actions, s)
    ensures |s.events| <= s.capacity == (if capacity == 0 then 1 else capacity) && s.strict == strict
    decreases |actions|
  {
    if actions != [] {
      var before := Run(strict, capacity, actions[..|actions| - 1]).value;
      EventsAreBounded(strict, capacity, actions[..|actions| - 1], before);
      StepIsBounded(before, actions[|actions| - 1]);
      hide Apply;
    }
  }

  lemma StepIsBounded(s: State, a: Action)
    requires Enabled(s, a) && |s.events| <= s.capacity
    ensures |Apply(s, a).events| <= s.capacity && Apply(s, a).capacity == s.capacity && Apply(s, a).strict == s.strict
  {
    if ByReader(a) {
      hide DriverStep;
    } else {
      hide ReaderStep;
    }
    if a.SendChunk? {
      EventsMove(s.reader.began, s, a);
    } else if !Takes(a) {
      EventsMove(0, s, a);
    }
    hide Enabled, Sending;
  }

  lemma Extend(strict: bool, capacity: nat, actions: seq<Action>, s: State, a: Action)
    returns (longer: seq<Action>, after: State)
    requires Reaches(strict, capacity, actions, s) && Enabled(s, a)
    ensures Reaches(strict, capacity, longer, after) && after == Apply(s, a)
  {
    longer, after := actions + [a], Apply(s, a);
    assert longer[..|longer| - 1] == actions;
  }

  // The probe is acknowledged, and answered where the startup asks for that ...
  lemma ReachCleared(strict: bool, capacity: nat) returns (actions: seq<Action>, s: State)
    ensures Reaches(strict, capacity, actions, s) && s.driver.ClearPaused? && s.reader.LoopTop?
    ensures s.events == [] && s.running && s.initAcknowledged.None? && s.capacity > 0
  {
    actions, s := [], Init(strict, capacity);
    actions, s := Extend(strict, capacity, actions, s, DetectAcknowledged);
    if strict {
      actions, s := Extend(strict, capacity, actions, s, CapabilityAcknowledged);
      actions, s := Extend(strict, capacity, actions, s, ReaderLoop);
      actions, s := Extend(strict, capacity, actions, s, ReadReturns(Data));
      actions, s := Extend(strict, capacity, actions, s, SendChunk);
      actions, s := Extend(strict, capacity, actions, s, ResponseAdmitted);
    }
  }

  // ... a chunk read before Init is queued and consumed before the boundary ...
  lemma ReachBoundary(strict: bool, capacity: nat) returns (actions: seq<Action>, s: State)
    ensures Reaches(strict, capacity, actions, s) && s.driver.AwaitBoundary? && s.reader.LoopTop?
    ensures s.events == [] && s.running && s.pauseRequested && s.initAcknowledged.None? && s.capacity > 0
  {
    hide Reaches;
    actions, s := ReachCleared(strict, capacity);
    actions, s := Extend(strict, capacity, actions, s, ReaderLoop);
    actions, s := Extend(strict, capacity, actions, s, ReadReturns(Data));
    actions, s := Extend(strict, capacity, actions, s, SendChunk);
    actions, s := Extend(strict, capacity, actions, s, StorePausedFalse);
    actions, s := Extend(strict, capacity, actions, s, StorePauseRequest);
    actions, s := Extend(strict, capacity, actions, s, Consume);
  }

  // ... the reader reaches the boundary ...
  lemma ReachPaused(strict: bool, capacity: nat) returns (actions: seq<Action>, s: State)
    ensures Reaches(strict, capacity, actions, s) && s.driver.AwaitBoundary? && s.reader.PauseLoop? && s.pausedAfterIdle
    ensures s.events == [] && s.running && s.pauseRequested && s.initAcknowledged.None? && s.capacity > 0
  {
    hide Reaches;
    actions, s := ReachBoundary(strict, capacity);
    actions, s := Extend(strict, capacity, actions, s, ReaderLoop);
    actions, s := Extend(strict, capacity, actions, s, ReadReturns(Idle));
    actions, s := Extend(strict, capacity, actions, s, LoadPauseRequest);
    actions, s := Extend(strict, capacity, actions, s, StorePaused);
  }

  // ... and Init is acknowledged.
  lemma ReachReady(strict: bool, capacity: nat) returns (actions: seq<Action>, s: State)
    ensures Reaches(strict, capacity, actions, s) && s.driver.Ready? && s.reader.PauseLoop?
    ensures s.events == [] && s.running && !s.pauseRequested && s.capacity > 0
  {
    hide Reaches;
    actions, s := ReachPaused(strict, capacity);
    actions, s := Extend(strict, capacity, actions, s, SeeBoundary);
    actions, s := Extend(strict, capacity, actions, s, SeeEmpty);
    actions, s := Extend(strict, capacity, actions, s, AcknowledgeInit);
    actions, s := Extend(strict, capacity, actions, s, SeeInitAcknowledged);
    actions, s := Extend(strict, capacity, actions, s, StoreResume);
  }

  /** The barrier does not simply block: for every event capacity either startup
      can succeed and go on to deliver a chunk, although a chunk read before Init
      was queued when the barrier was requested. */
  lemma StartupCanSucceed(strict: bool, capacity: nat) returns (actions: seq<Action>, s: State)
    ensures Reaches(strict, capacity, actions, s) && s.driver.Ready? && |s.events| == 1 && s.events[0].Read?
  {
    hide Reaches;
    actions, s := ReachReady(strict, capacity);
    actions, s := Extend(strict, capacity, actions, s, PollPause);
    actions, s := Extend(strict, capacity, actions, s, StoreUnpaused);
    actions, s := Extend(strict, capacity, actions, s, ReaderLoop);
    actions, s := Extend(strict, capacity, actions, s, ReadReturns(Data));
    actions, s := Extend(strict, capacity, actions, s, SendChunk);
  }

  // ---------------------------------------------------------------------
  // What the actions alone say
  // ---------------------------------------------------------------------

  // The step of the last read that began.
  function LastLoop(actions: seq<Action>): nat {
    if actions == [] then 0
    else if actions[|actions| - 1].ReaderLoop? then |actions| - 1
    else LastLoop(actions[..|actions| - 1])
  }

  function NewlySent(loop: nat, a: Action): seq<Event> {
    match a
    case SendChunk => [Read(loop)]
    case SendReaderExit => [ReaderExit]
    case WriterEnds => [WriterExit]
    case _ => []
  }

  // Everything sent on the event channel, and how much of it was received.
  function Sent(actions: seq<Action>): seq<Event> {
    if actions == [] then []
    else Sent(actions[..|actions| - 1]) + NewlySent(LastLoop(actions[..|actions| - 1]), actions[|actions| - 1])
  }

  predicate Takes(a: Action) {
    a.Consume? || a.ResponseAdmitted?
  }

  function Taken(actions: seq<Action>): nat {
    if actions == [] then 0 else Taken(actions[..|actions| - 1]) + if Takes(actions[|actions| - 1]) then 1 else 0
  }

  predicate NoExit(events: seq<Event>) {
    forall i :: 0 <= i < |events| ==> events[i].Read?
  }

  // A read in the reader's hands is the last that began.
  predicate ReadInv(loop: nat, s: State) {
    s.reader.Reading? || s.reader.HaveChunk? ==> s.reader.began == loop
  }

  // The channel is first in, first out, and loses nothing while it is open; a startup
  // under way has received no exit.
  predicate FifoInv(sent: seq<Event>, taken: nat, s: State) {
    && (!s.driver.Stopped? ==> taken <= |sent| && s.events == sent[taken..])
    && (BeforeRequest(s.driver) || Requesting(s.driver) ==> taken <= |sent| && NoExit(sent[..taken]))
  }

  lemma StepKeepsRead(loop: nat, s: State, a: Action)
    requires Enabled(s, a) && ReadInv(loop, s)
    ensures ReadInv(if a.ReaderLoop? then s.now else loop, Apply(s, a))
  {
  }

  // What one step does to the channel ...
  lemma EventsMove(loop: nat, s: State, a: Action)
    requires Enabled(s, a) && (ReadInv(loop, s) || !a.SendChunk?) && !Takes(a)
    ensures Apply(s, a).events == if s.driver.Stopped? then s.events else s.events + NewlySent(loop, a)
    ensures NewlySent(loop, a) != [] ==> s.driver.Stopped? || |s.events| < s.capacity
  {
    if ByReader(a) {
      ReaderSends(loop, s, a);
    } else {
      hide ReaderStep;
    }
  }

  lemma ReaderSends(loop: nat, s: State, a: Action)
    requires Enabled(s, a) && (ReadInv(loop, s) || !a.SendChunk?) && ByReader(a)
    ensures Apply(s, a).events == if s.driver.Stopped? then s.events else s.events + NewlySent(loop, a)
    ensures NewlySent(loop, a) != [] ==> s.driver.Stopped? || |s.events| < s.capacity
  {
    hide DriverStep;
  }

  // ... and to the driver.
  lemma DriverMoves(s: State, a: Action)
    requires Enabled(s, a)
    ensures s.driver.Stopped? ==> Apply(s, a).driver.Stopped?
    ensures BeforeRequest(Apply(s, a).driver) || Requesting(Apply(s, a).driver) ==>
              BeforeRequest(s.driver) || Requesting(s.driver)
  {
    if ByReader(a) {
      hide DriverStep;
    } else {
      hide ReaderStep;
    }
  }

  lemma SendKeepsFifo(sent: seq<Event>, taken: nat, loop: nat, s: State, a: Action)
    requires Enabled(s, a) && ReadInv(loop, s) && FifoInv(sent, taken, s) && !Takes(a)
    ensures FifoInv(sent + NewlySent(loop, a), taken, Apply(s, a))
  {
    EventsMove(loop, s, a);
    DriverMoves(s, a);
    hide Apply, Enabled;
    var more := NewlySent(loop, a);
    if !s.driver.Stopped? {
      assert (sent + more)[taken..] == sent[taken..] + more && (sent + more)[..taken] == sent[..taken];
    }
  }

  lemma TakeKeepsFifo(sent: seq<Event>, taken: nat, s: State, a: Action)
    requires Enabled(s, a) && FifoInv(sent, taken, s) && Takes(a)
    ensures FifoInv(sent, taken + 1, Apply(s, a))
  {
    assert sent[taken..][1..] == sent[taken + 1..] && s.events[0] == sent[taken];
    DriverMoves(s, a);
    assert sent[..taken + 1] == sent[..taken] + [sent[taken]];
  }

  lemma ActionsMove(actions: seq<Action>)
    requires actions != []
    ensures var before, a := actions[..|actions| - 1], actions[|actions| - 1];
            && LastLoop(actions) == (if a.ReaderLoop? then |actions| - 1 else LastLoop(before))
            && Sent(actions) == (if Takes(a) then Sent(before) else Sent(before) + NewlySent(LastLoop(before), a))
            && Taken(actions) == Taken(before) + if Takes(a) then 1 else 0
  {
  }

  lemma {:induction false} RunKeepsChannel(strict: bool, capacity: nat, actions: seq<Action>, s: State)
    requires Reaches(strict, capacity, actions, s)
    ensures s.now == |actions| && ReadInv(LastLoop(actions), s) && FifoInv(Sent(actions), Taken(actions), s)
    decreases |actions|
  {
    if actions != [] {
      var prefix, a := actions[..|actions| - 1], actions[|actions| - 1];
      var before := Run(strict, capacity, prefix).value;
      assert s == Apply(before, a) && s.now == before.now + 1;
      RunKeepsChannel(strict, capacity, prefix, before);
      ActionsMove(actions);
      hide FifoInv, ReadInv, Enabled, Apply, Run, Sent, Taken, LastLoop;
      StepKeepsRead(LastLoop(prefix), before, a);
      if Takes(a) {
        TakeKeepsFifo(Sent(prefix), Taken(prefix), before, a);
      } else {
        SendKeepsFifo(Sent(prefix), Taken(prefix), LastLoop(prefix), before, a);
      }
    }
  }

  lemma StepAcknowledges(s: State, a: Action)
    requires Enabled(s, a)
    ensures Apply(s, a).initAcknowledged == if a.AcknowledgeInit? then Some(s.now) else s.initAcknowledged
  {
  }

  lemma {:induction false} AcknowledgedAt(strict: bool, capacity: nat, actions: seq<Action>, s: State)
    requires Reaches(strict, capacity, actions, s) && s.initAcknowledged.Some?
    ensures s.initAcknowledged.value < |actions| && actions[s.initAcknowledged.value].AcknowledgeInit?
    decreases |actions|
  {
    if actions != [] {
      var prefix := actions[..|actions| - 1];
      var before := Run(strict, capacity, prefix).value;
      RunKeepsChannel(strict, capacity, prefix, before);
      StepAcknowledges(before, actions[|actions| - 1]);
      hide FifoInv, ReadInv, Apply, Enabled;
      if before.initAcknowledged.Some? {
        AcknowledgedAt(strict, capacity, prefix, before);
      }
    }
  }

  /** The event channel, until the driver closes it, delivers everything sent, once and
      in order; each chunk carries the step at which its read began. */
  lemma EventsAreFifo(strict: bool, capacity: nat, actions: seq<Action>, s: State)
    requires Reaches(strict, capacity, actions, s) && !s.driver.Stopped?
    ensures Taken(actions) <= |Sent(actions)| && s.events == Sent(actions)[Taken(actions)..]
  {
    RunKeepsChannel(strict, capacity, actions, s);
  }

  /** An exit of either worker fails a startup: one that is still under way, and so one
      about to return Ok, has received chunks only. */
  lemma StartupReceivesNoExit(strict: bool, capacity: nat, actions: seq<Action>, s: State)
    requires Reaches(strict, capacity, actions, s) && (BeforeRequest(s.driver) || Requesting(s.driver))
    ensures Taken(actions) <= |Sent(actions)| && NoExit(Sent(actions)[..Taken(actions)])
  {
    RunKeepsChannel(strict, capacity, actions, s);
  }

  /** Freshness on the actions alone: after Ok, whatever was sent and not yet received
      comes from a read that began after the step at which Init was acknowledged. */
  lemma FreshnessOfActions(strict: bool, capacity: nat, actions: seq<Action>, s: State) returns (acknowledged: nat)
    requires Reaches(strict, capacity, actions, s) && (s.driver.Ready? || s.driver.Closing?)
    ensures acknowledged < |actions| && actions[acknowledged].AcknowledgeInit?
    ensures Taken(actions) <= |Sent(actions)|
    ensures forall i :: Taken(actions) <= i < |Sent(actions)| && Sent(actions)[i].Read? ==>
                          Sent(actions)[i].began > acknowledged
  {
    StartupIsFresh(strict, capacity, actions, s);
    AcknowledgedAt(strict, capacity, actions, s);
    EventsAreFifo(strict, capacity, actions, s);
    acknowledged := s.initAcknowledged.value;
    var sent, taken := Sent(actions), Taken(actions);
    assert forall i :: taken <= i < |sent| ==> s.events[i - taken] == sent[i];
  }

  // ---------------------------------------------------------------------
  // Stopping
  // ---------------------------------------------------------------------

  predicate StopInv(s: State) {
    && (s.driver.Closing? || s.driver.Stopped? ==> !s.running && !s.pauseRequested)
    && (s.pausedAfterIdle <==> s.reader.PauseLoop? || s.reader.Leaving?)
  }

  lemma StepKeepsStop(s: State, a: Action)
    requires Enabled(s, a) && StopInv(s) && BarrierInv(s)
    ensures StopInv(Apply(s, a))
  {
  }

  lemma {:induction false} RunKeepsStop(strict: bool, capacity: nat, actions: seq<Action>, s: State)
    requires Reaches(strict, capacity, actions, s)
    ensures StopInv(s)
    decreases |actions|
  {
    if actions != [] {
      var prefix := actions[..|actions| - 1];
      var before := Run(strict, capacity, prefix).value;
      RunKeeps(strict, capacity, prefix, before);
      RunKeepsStop(strict, capacity, prefix, before);
      StepKeepsStop(before, actions[|actions| - 1]);
    }
  }

  /** A stopped driver has called off both the workers and the barrier, and the paused
      flag says where the reader is, in every reachable state. */
  lemma FlagsAreTrue(strict: bool, capacity: nat, actions: seq<Action>, s: State)
    requires Reaches(strict, capacity, actions, s)
    ensures s.driver.Closing? || s.driver.Stopped? ==> !s.running && !s.pauseRequested
    ensures s.pausedAfterIdle <==> s.reader.PauseLoop? || s.reader.Leaving?
  {
    RunKeepsStop(strict, capacity, actions, s);
  }

  /** No read begins after a stop: what the reader still reads it had begun before. */
  lemma {:induction false} NoReadAfterStop(
    strict: bool, capacity: nat, actions: seq<Action>, s: State, more: seq<Action>, t: State)
    requires Reaches(strict, capacity, actions, s) && (s.driver.Closing? || s.driver.Stopped?)
    requires Reaches(strict, capacity, actions + more, t)
    ensures (t.driver.Closing? || t.driver.Stopped?) && !t.running
    ensures t.reader.Reading? || t.reader.HaveChunk? ==> t.reader.began < |actions|
    decreases |more|
  {
    if more == [] {
      assert actions + more == actions;
      RunKeepsStop(strict, capacity, actions, s);
      ReadBeganBefore(strict, capacity, actions, s);
    } else {
      var n := |more| - 1;
      assert (actions + more)[..|actions| + n] == actions + more[..n] && (actions + more)[|actions| + n] == more[n];
      var before := Run(strict, capacity, actions + more[..n]).value;
      NoReadAfterStop(strict, capacity, actions, s, more[..n], before);
      StepStaysStopped(before, more[n]);
      hide Apply, Enabled;
    }
  }

  lemma StepStaysStopped(s: State, a: Action)
    requires Enabled(s, a) && (s.driver.Closing? || s.driver.Stopped?) && !s.running
    ensures var t := Apply(s, a);
            && (t.driver.Closing? || t.driver.Stopped?) && !t.running
            && (t.reader.Reading? || t.reader.HaveChunk? ==>
                  (s.reader.Reading? || s.reader.HaveChunk?) && t.reader.began == s.reader.began)
  {
    if ByReader(a) {
      hide DriverStep;
    } else {
      hide ReaderStep;
    }
  }

  lemma ReadBeganBefore(strict: bool, capacity: nat, actions: seq<Action>, s: State)
    requires Reaches(strict, capacity, actions, s)
    ensures s.reader.Reading? || s.reader.HaveChunk? ==> s.reader.began < |actions|
  {
    RunKeepsChannel(strict, capacity, actions, s);
    if actions != [] {
      LoopIsPast(actions);
    } else {
      assert s == Init(strict, capacity);
    }
  }

  lemma {:induction false} LoopIsPast(actions: seq<Action>)
    requires actions != []
    ensures LastLoop(actions) < |actions|
  {
    if |actions| > 1 {
      LoopIsPast(actions[..|actions| - 1]);
    }
  }

  // How far the reader is from its end once it is told to stop.
  function Distance(r: Reader): nat {
    match r
    case Ended => 0
    case Ending => 1
    case LoopTop => 2
    case HaveChunk(_) => 2
    case Reading(_) => 3
    case IdleSeen => 3
    case Leaving => 3
    case PauseLoop => 4
    case Pausing => 5
  }

  function TowardsEnd(r: Reader): Action
    requires !r.Ended?
  {
    match r
    case Ending => SendReaderExit
    case LoopTop => ReaderLoop
    case HaveChunk(_) => SendChunk
    case Reading(_) => ReadReturns(ReadError)
    case IdleSeen => LoadPauseRequest
    case Leaving => StoreUnpaused
    case PauseLoop => PollPause
    case Pausing => StorePaused
  }

  lemma {:induction false} ReaderCanEnd(strict: bool, capacity: nat, actions: seq<Action>, s: State)
    returns (longer: seq<Action>, after: State)
    requires Reaches(strict, capacity, actions, s) && s.driver.Stopped?
    ensures Reaches(strict, capacity, longer, after) && after.driver.Stopped? && after.reader.Ended?
    decreases Distance(s.reader)
  {
    longer, after := actions, s;
    if !s.reader.Ended? {
      RunKeepsStop(strict, capacity, actions, s);
      longer, after := Extend(strict, capacity, actions, s, TowardsEnd(s.reader));
      longer, after := ReaderCanEnd(strict, capacity, longer, after);
    }
  }

  lemma DriverCanStop(strict: bool, capacity: nat, actions: seq<Action>, s: State)
    returns (longer: seq<Action>, after: State)
    requires Reaches(strict, capacity, actions, s)
    ensures Reaches(strict, capacity, longer, after) && after.driver.Stopped?
  {
    hide Reaches;
    longer, after := actions, s;
    if BeforeRequest(s.driver) || Requesting(s.driver) {
      longer, after := Extend(strict, capacity, longer, after, Fail);
    }
    if after.driver.Failed? || after.driver.Ready? {
      longer, after := Extend(strict, capacity, longer, after, StopWorkers);
    }
    if after.driver.Closing? {
      longer, after := Extend(strict, capacity, longer, after, GiveUpDrain);
    }
  }

  /** Nothing hangs: from every reachable state the driver can fail or stop, and then
      the reader can always come to its end. */
  lemma EverythingCanStop(strict: bool, capacity: nat, actions: seq<Action>, s: State)
    returns (longer: seq<Action>, after: State)
    requires Reaches(strict, capacity, actions, s)
    ensures Reaches(strict, capacity, longer, after) && after.driver.Stopped? && after.reader.Ended?
  {
    longer, after := DriverCanStop(strict, capacity, actions, s);
    longer, after := ReaderCanEnd(strict, capacity, longer, after);
  }

  /** A worker may end at any time there is room, and the tail of a stopped session is
      drained exactly up to the reader's exit. */
  lemma DrainEndsWithReader(s: State)
    requires s.driver.Closing? && s.events != []
    ensures Enabled(s, Consume)
    ensures Apply(s, Consume).events == s.events[1..]
    ensures Apply(s, Consume).driver == if s.events[0].ReaderExit? then Stopped else Closing
    ensures |s.events| < s.capacity ==>
              Enabled(s, WriterEnds) && Apply(s, WriterEnds).events == s.events + [WriterExit]
  {
  }
}
