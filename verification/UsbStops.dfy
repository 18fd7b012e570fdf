/**
 How a session's writer comes to its end: what a stop request leaves to be written,
 what an ended writer still takes, and that the last detach can always be written.
 */
module UsbStops {
  import opened Basics
  import opened UsbTxGate
  import opened UsbWriteQueue
  import opened UsbInterface
  import opened UsbSessionProofs

  // ---------------------------------------------------------------------
  // An ended writer
  // ---------------------------------------------------------------------

  predicate EndsWithDetach(l: Line) {
    l.wire != [] && l.wire[|l.wire| - 1].request.phase == Detach && l.wire[|l.wire| - 1].progress == Finished(Done)
  }

  predicate EndInv(l: Line) {
    && (l.writer.WriterEnded? <==> l.queue.workerClosed)
    && (l.writer == WriterEnded(Stopped) ==> !l.running)
    && (l.writer == WriterEnded(Detached) ==> EndsWithDetach(l))
    && (l.queue.workerClosed || l.queue.cancelled ==> l.queue.requests == [] && !l.queue.accepting)
    && (!l.running <==> l.queue.cancelled)
  }

  lemma WriterKeepsEnd(ss: Session, w: WriterStep, id: nat)
    requires EndInv(ss.line) && WireInv(ss.line) && WriterEnabled(ss, w)
    ensures EndInv(LineStep(ss.line, ss.radio, w, id))
  {
  }

  lemma StepKeepsEnd(s: Interface, a: Action)
    requires Enabled(s, a)
    requires s.session.Some? ==> EndInv(s.session.value.line) && WireInv(s.session.value.line)
    ensures Apply(s, a).session.Some? ==> EndInv(Apply(s, a).session.value.line)
  {
    if a.Writer? {
      WriterKeepsEnd(s.session.value, a.writer, StartedId(s.background));
      hide EndInv, WireInv, LineStep;
    }
  }

  lemma {:induction false} RunKeepsEnd(actions: seq<Action>, s: Interface)
    requires Reaches(actions, s)
    ensures s.session.Some? ==> EndInv(s.session.value.line)
    decreases |actions|
  {
    if actions == [] {
    } else {
      var before := Unwind(actions, s);
      RunKeepsEnd(actions[..|actions| - 1], before);
      RunKeeps(actions[..|actions| - 1], before);
      hide Apply, Enabled, EndInv, WireInv;
      StepKeepsEnd(before, actions[|actions| - 1]);
    }
  }

  /** Whenever a writer ends, in whatever way, its queue is closed for good: it holds
      nothing, admits nothing, and no detach is accepted. The same holds after a stop
      was requested. */
  lemma EndedWriterTakesNothing(actions: seq<Action>, s: Interface)
    requires Reaches(actions, s) && s.session.Some?
    requires s.session.value.line.writer.WriterEnded? || !s.session.value.line.running
    ensures var q := s.session.value.line.queue; q.requests == [] && !CanEnqueue(q) && !CanDetach(q)
  {
    RunKeepsEnd(actions, s);
  }

  /** The exit of a writer tells the truth: Stopped only after a stop request, Detached
      only if the last thing written was a detach, in time. */
  lemma ExitIsTrue(actions: seq<Action>, s: Interface)
    requires Reaches(actions, s) && s.session.Some?
    ensures s.session.value.line.writer == WriterEnded(Stopped) ==> !s.session.value.line.running
    ensures s.session.value.line.writer == WriterEnded(Detached) ==> EndsWithDetach(s.session.value.line)
  {
    RunKeepsEnd(actions, s);
  }

  // ---------------------------------------------------------------------
  // A stop request
  // ---------------------------------------------------------------------

  // What may have happened to the line since a stop: nothing new but the request the
  // writer then held.
  predicate SinceStop(was: Line, l: Line) {
    && l.queue.cancelled
    && (l.writer.Holding? ==> was.writer.Holding? && l.writer.request == was.writer.request && |l.wire| == |was.wire|)
    && |was.wire| <= |l.wire| <= |was.wire| + 1
    && (|l.wire| == |was.wire| + 1 ==> was.writer.Holding? && l.wire[|was.wire|].request == was.writer.request)
    && (l.writer.Writing? && |l.wire| == |was.wire| + 1 ==> l.writer.request == was.writer.request)
  }

  lemma WriterKeepsSinceStop(was: Line, ss: Session, w: WriterStep, id: nat)
    requires SinceStop(was, ss.line) && WireInv(ss.line) && WriterEnabled(ss, w)
    ensures SinceStop(was, LineStep(ss.line, ss.radio, w, id))
  {
  }

  lemma StepKeepsSinceStop(was: Line, s: Interface, a: Action)
    requires s.session.Some? && SinceStop(was, s.session.value.line) && SessionInv(s.session.value)
    requires Enabled(s, a) && !a.Open? && Apply(s, a).session.Some?
    ensures SinceStop(was, Apply(s, a).session.value.line)
  {
    match a
    case Writer(w) => WriterKeepsSinceStop(was, s.session.value, w, StartedId(s.background));
    case _ =>
  }

  lemma {:induction false} RunKeepsSinceStop(actions: seq<Action>, s: Interface, more: seq<Action>, t: Interface,
                                             was: Line)
    requires Reaches(actions, s) && s.session.Some? && SinceStop(was, s.session.value.line)
    requires Reaches(actions + more, t) && t.session.Some? && forall i :: 0 <= i < |more| ==> !more[i].Open?
    ensures SinceStop(was, t.session.value.line)
    decreases |more|
  {
    if more == [] {
      assert actions + more == actions;
    } else {
      var n := |more| - 1;
      var before := Unwind(actions + more, t);
      assert (actions + more)[..|actions| + n] == actions + more[..n] && (actions + more)[|actions| + n] == more[n];
      RunKeeps(actions + more[..n], before);
      hide Reaches, SinceStop, SessionInv, Apply, Enabled;
      SessionStays(before, more[n]);
      RunKeepsSinceStop(actions, s, more[..n], before, was);
      StepKeepsSinceStop(was, before, more[n]);
    }
  }

  lemma SessionStays(s: Interface, a: Action)
    requires Enabled(s, a) && !a.Open? && Apply(s, a).session.Some?
    ensures s.session.Some?
  {
  }

  /** After a stop request the backend sees at most one more request of that session,
      and only the one the writer held when the stop came. */
  lemma StopBarrier(actions: seq<Action>, s: Interface, more: seq<Action>, t: Interface)
    requires Reaches(actions, s) && s.session.Some?
    requires Reaches(actions + [Driver(RequestStop)] + more, t) && t.session.Some?
    requires forall i :: 0 <= i < |more| ==> !more[i].Open?
    ensures var was, l := s.session.value.line, t.session.value.line;
            && |was.wire| <= |l.wire| <= |was.wire| + 1
            && (|l.wire| == |was.wire| + 1 ==> was.writer.Holding? && l.wire[|was.wire|].request == was.writer.request)
  {
    var stopped, after := Extend(actions, s, Driver(RequestStop));
    RunKeepsSinceStop(stopped, after, more, t, s.session.value.line);
  }

  // ---------------------------------------------------------------------
  // The last detach
  // ---------------------------------------------------------------------

  /** A writer that waits for requests can always write a detach and end with it, also
      after a failed Init that left only the detach. */
  lemma DetachCanBeWritten(actions: seq<Action>, s: Interface) returns (longer: seq<Action>, after: Interface)
    requires Reaches(actions, s) && s.session.Some?
    requires s.session.value.line.writer.Looping? && CanDetach(s.session.value.line.queue)
    ensures Reaches(longer, after) && after.session.Some?
    ensures var was, l := s.session.value.line, after.session.value.line;
            && l.writer == WriterEnded(Detached) && |l.wire| == |was.wire| + 1
            && l.wire[|was.wire|].request == DETACH && l.wire[|was.wire|].progress == Finished(Done)
  {
    longer, after := DetachCanStart(actions, s);
    hide Reaches;
    longer, after := Extend(longer, after, Writer(FinishWrite(Done)));
  }

  lemma DetachCanStart(actions: seq<Action>, s: Interface) returns (longer: seq<Action>, after: Interface)
    requires Reaches(actions, s) && s.session.Some?
    requires s.session.value.line.writer.Looping? && CanDetach(s.session.value.line.queue)
    ensures Reaches(longer, after) && after.session.Some?
    ensures var was, l := s.session.value.line, after.session.value.line;
            && l.writer.Writing? && l.writer.request == DETACH && |l.wire| == |was.wire| + 1
            && l.wire[|was.wire|].request == DETACH
  {
    hide Reaches;
    longer, after := Extend(actions, s, Driver(BeginDetach));
    longer, after := Extend(longer, after, Writer(Receive));
    longer, after := Extend(longer, after, Writer(BeginWrite));
  }

  /** An Init that awaits a terminal detach and fails or comes late leaves the writer
      alive for that detach; any other failed write ends it. */
  lemma FailedWriteEndsUnlessInit(actions: seq<Action>, s: Interface, outcome: Outcome)
    returns (longer: seq<Action>, after: Interface)
    requires Reaches(actions, s) && s.session.Some? && s.session.value.line.writer.Writing? && outcome != Done
    ensures longer == actions + [Writer(FinishWrite(outcome))] && Reaches(longer, after) && after.session.Some?
    ensures var r, l := s.session.value.line.writer.request, after.session.value.line;
            && (r.awaitsDetach ==> l.writer == Looping(true) && l.queue.requests == s.session.value.line.queue.requests
                                   && l.queue.workerClosed == s.session.value.line.queue.workerClosed)
            && (!r.awaitsDetach ==> l.writer == WriterEnded(Failed) && l.queue.workerClosed)
    ensures s.session.value.line.writer.request.lane.Ordinary? ==> after.session.value.ack == AckErr
  {
    longer, after := Extend(actions, s, Writer(FinishWrite(outcome)));
  }

  /** The gate's answer decides an ordinary request the writer holds: refused, or out of
      turn, the writer ends, writes nothing and tells the caller; otherwise the request
      is admitted and nobody is told yet. */
  lemma GateDecidesHeldRequest(actions: seq<Action>, s: Interface) returns (longer: seq<Action>, after: Interface)
    requires Reaches(actions, s) && s.session.Some? && s.session.value.line.writer.Holding?
    requires s.session.value.line.writer.request.lane.Ordinary? && !s.session.value.line.writer.admitted
    ensures longer == actions + [Writer(AskGate)] && Reaches(longer, after) && after.session.Some?
    ensures after.session.value.line.wire == s.session.value.line.wire
    ensures var w, now := s.session.value.line.writer, after.session.value;
            if OutOfTurn(w) || !Admitting(s.session.value.radio)
            then now.line.writer == WriterEnded(Failed) && now.ack == AckErr
            else now.line.writer == w.(admitted := true) && now.ack == s.session.value.ack
  {
    longer, after := Extend(actions, s, Writer(AskGate));
  }

  /** A timely write that is no detach leaves the writer waiting for the next request,
      its acknowledgement positive. */
  lemma TimelyWriteContinues(actions: seq<Action>, s: Interface) returns (longer: seq<Action>, after: Interface)
    requires Reaches(actions, s) && s.session.Some? && s.session.value.line.writer.Writing?
    requires s.session.value.line.writer.request.phase != Detach
    ensures longer == actions + [Writer(FinishWrite(Done))] && Reaches(longer, after) && after.session.Some?
    ensures after.session.value.line.writer == Looping(s.session.value.line.writer.detachOnly)
    ensures after.session.value.line.queue.requests == s.session.value.line.queue.requests
    ensures s.session.value.line.writer.request.lane.Ordinary? ==> after.session.value.ack == AckOk
  {
    longer, after := Extend(actions, s, Writer(FinishWrite(Done)));
  }

  // ---------------------------------------------------------------------
  // What is always possible
  // ---------------------------------------------------------------------

  /** The surroundings are free: packets may be sent until the channel is closed, and in
      a session frames may arrive, the gate be closed, a stop be requested, the worker
      fail, or the session be quarantined, in every state. */
  lemma SurroundingsAreFree(s: Interface, payload: Payload, now: nat, ready: bool, frame: RadioFrame)
    ensures !s.channel.closed ==> Enabled(s, Send(payload))
    ensures Enabled(s, CloseChannel)
    ensures s.session.Some? ==>
              && Enabled(s, Driver(ObserveFrame(now, ready, frame))) && Enabled(s, Driver(CloseGate))
              && Enabled(s, Driver(RequestStop)) && Enabled(s, Quarantine)
              && (!s.session.value.line.writer.WriterEnded? ==> Enabled(s, Writer(Panic)))
              && (CanDetach(s.session.value.line.queue) ==> Enabled(s, Driver(BeginDetach)))
              && (s.session.value.pump.NotStarted? ==> Enabled(s, AbandonStartup))
              && (!s.session.value.pump.NotStarted? && !s.session.value.pump.PumpEnded? ==>
                    Enabled(s, Pump(EndPump(StopRequested, now))))
  {
  }

  /** Every session can be ended, from whatever state its writer and pump are in, without
      losing a packet of the channel or the occupant of the retry slot. */
  lemma SessionCanEnd(actions: seq<Action>, s: Interface) returns (longer: seq<Action>, after: Interface)
    requires Reaches(actions, s) && s.session.Some?
    ensures Reaches(longer, after) && after.session.None? && after.finished == s.finished
    ensures after.channel == s.channel && after.background.slot == s.background.slot
  {
    hide Reaches;
    longer, after := actions, s;
    if !s.session.value.pump.NotStarted? && !s.session.value.pump.PumpEnded? {
      longer, after := Extend(longer, after, Pump(EndPump(StopRequested, 0)));
    }
    if !s.session.value.line.writer.WriterEnded? {
      longer, after := Extend(longer, after, Writer(Panic));
    }
    longer, after := Extend(longer, after, EndGeneration(false));
  }

  /** A stop request ends a writer that waits, or holds a request it has not asked the
      gate for, without writing anything. */
  lemma WriterStopsOnRequest(actions: seq<Action>, s: Interface) returns (longer: seq<Action>, after: Interface)
    requires Reaches(actions, s) && s.session.Some?
    requires var w := s.session.value.line.writer;
             w.Looping? || (w.Holding? && (w.request.lane.Ordinary? ==> !w.admitted))
    ensures longer == actions + [Driver(RequestStop), Writer(Stop)] && Reaches(longer, after) && after.session.Some?
    ensures after.session.value.line.writer == WriterEnded(Stopped)
    ensures after.session.value.line.wire == s.session.value.line.wire
  {
    hide Reaches;
    longer, after := Extend(actions, s, Driver(RequestStop));
    longer, after := Extend(longer, after, Writer(Stop));
  }

  /** An ordinary request the gate has admitted is written in spite of the stop. */
  lemma AdmittedRequestOutlivesStop(actions: seq<Action>, s: Interface) returns (longer: seq<Action>, after: Interface)
    requires Reaches(actions, s) && s.session.Some? && s.session.value.line.writer.Holding?
    requires var w := s.session.value.line.writer; w.request.lane.Ordinary? && w.admitted && !OutOfTurn(w)
    ensures longer == actions + [Driver(RequestStop), Writer(BeginWrite)] && Reaches(longer, after) && after.session.Some?
    ensures var was, l := s.session.value.line, after.session.value.line;
            |l.wire| == |was.wire| + 1 && l.wire[|was.wire|].request == was.writer.request
  {
    hide Reaches;
    longer, after := Extend(actions, s, Driver(RequestStop));
    longer, after := Extend(longer, after, Writer(BeginWrite));
  }
}
