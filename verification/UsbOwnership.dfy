/**
 Physical USB owners and their shutdown, over the shared lease table.

 An owner lives from a successful open until its `OwnedUsbIo` is gone. The
 shutdown has three await points (detach acknowledgement, writer join, reader
 join); cancelling the future at any of them, or dropping the owner without a
 shutdown, runs the drop path. A join observes a worker's end only after the
 worker has ended.
 */
module UsbOwnership {
  import opened Basics
  import opened UsbLeases

  datatype Stage = Using | AwaitDetach | JoiningWriter | JoiningReader(writerQuiesced: bool) | Gone

  // Calls made on the physical owner, with what was true of the workers then.
  datatype Cleanup =
    | ReleaseAndClose(proven: bool, writerEnded: bool, readerEnded: bool)
    | RetainQuarantined

  datatype Disposition = Released | QuarantinedOwner

  datatype Owner = Owner(
    device: string,
    stage: Stage,
    stopRequested: bool,
    writerEnded: bool,
    readerEnded: bool,
    calls: seq<Cleanup>,
    report: Option<Disposition>)

  datatype System = System(devices: Devices<nat>, opening: set<string>, owners: map<nat, Owner>)

  function Init(): System {
    System(map[], {}, map[])
  }

  datatype Action =
    | ReserveDevice(device: string)
    | OpenFailed(device: string)
    | OpenerVanished(device: string)
    | Opened(device: string, id: nat)
    | WriterEnds(id: nat)
    | ReaderEnds(id: nat)
    | BeginShutdown(id: nat, detach: bool)
    | DetachSettled(id: nat)
    | WriterJoin(id: nat, quiesced: bool)
    | ReaderJoin(id: nat, quiesced: bool, closeProven: bool)
    | Cancel(id: nat)

  predicate Enabled(s: System, a: Action) {
    match a
    case ReserveDevice(device) => Accepted(LeaseOf(s.devices, device), Reserve)
    case OpenFailed(device) => device in s.opening
    case OpenerVanished(device) => device in s.opening
    case Opened(device, id) =>
      device in s.opening && id !in s.owners && Accepted(LeaseOf(s.devices, device), Activate)
    case WriterEnds(id) => id in s.owners
    case ReaderEnds(id) => id in s.owners
    case BeginShutdown(id, _) => id in s.owners && s.owners[id].stage.Using?
    case DetachSettled(id) => id in s.owners && s.owners[id].stage.AwaitDetach?
    case WriterJoin(id, quiesced) =>
      id in s.owners && s.owners[id].stage.JoiningWriter? && (quiesced ==> s.owners[id].writerEnded)
    case ReaderJoin(id, quiesced, _) =>
      id in s.owners && s.owners[id].stage.JoiningReader? && (quiesced ==> s.owners[id].readerEnded)
    case Cancel(id) => id in s.owners && !s.owners[id].stage.Gone?
  }

  // The owner is retained for good and its device is quarantined.
  function Retain(s: System, id: nat, calls: seq<Cleanup>, report: Option<Disposition>): System
    requires id in s.owners
  {
    var o := s.owners[id];
    s.(devices := Step(s.devices, o.device, Quarantine(id)),
       owners := s.owners[id := o.(stage := Gone, stopRequested := true,
                                   calls := o.calls + calls + [RetainQuarantined], report := report)])
  }

  // Both workers are joined; everything from here on is synchronous.
  function CloseOwner(s: System, id: nat, proven: bool): System
    requires id in s.owners
  {
    var o := s.owners[id];
    var call := ReleaseAndClose(proven, o.writerEnded, o.readerEnded);
    if !proven then Retain(s, id, [call], Some(QuarantinedOwner))
    else
      s.(devices := Step(s.devices, o.device, ReleaseActive),
         owners := s.owners[id := o.(stage := Gone, calls := o.calls + [call], report := Some(Released))])
  }

  function Apply(s: System, a: Action): System
    requires Enabled(s, a)
  {
    match a
    case ReserveDevice(device) =>
      s.(devices := Step(s.devices, device, Reserve), opening := s.opening + {device})
    case OpenFailed(device) =>
      s.(devices := Step(s.devices, device, ReleaseOpening), opening := s.opening - {device})
    case OpenerVanished(device) =>
      s.(devices := Step(s.devices, device, Quarantine(0)), opening := s.opening - {device})
    case Opened(device, id) =>
      s.(devices := Step(s.devices, device, Activate), opening := s.opening - {device},
         owners := s.owners[id := Owner(device, Using, false, false, false, [], None)])
    case WriterEnds(id) => s.(owners := s.owners[id := s.owners[id].(writerEnded := true)])
    case ReaderEnds(id) => s.(owners := s.owners[id := s.owners[id].(readerEnded := true)])
    case BeginShutdown(id, detach) =>
      s.(owners := s.owners[id := s.owners[id].(stage := if detach then AwaitDetach else JoiningWriter,
                                                stopRequested := s.owners[id].stopRequested || !detach)])
    case DetachSettled(id) =>
      s.(owners := s.owners[id := s.owners[id].(stage := JoiningWriter, stopRequested := true)])
    case WriterJoin(id, quiesced) => s.(owners := s.owners[id := s.owners[id].(stage := JoiningReader(quiesced))])
    case ReaderJoin(id, quiesced, closeProven) =>
      if s.owners[id].stage.writerQuiesced && quiesced then CloseOwner(s, id, closeProven)
      else Retain(s, id, [], Some(QuarantinedOwner))
    case Cancel(id) => Retain(s, id, [], None)
  }

  function Run(actions: seq<Action>): Option<System> {
    if actions == [] then Some(Init())
    else
      var before := Run(actions[..|actions| - 1]);
      if before.Some? && Enabled(before.value, actions[|actions| - 1])
      then Some(Apply(before.value, actions[|actions| - 1]))
      else None
  }

  ghost predicate Reaches(actions: seq<Action>, s: System) {
    Run(actions) == Some(s)
  }

  // ---------------------------------------------------------------------
  // One disposition per owner
  // ---------------------------------------------------------------------

  predicate Closed(o: Owner) {
    o.stage.Gone? && o.calls == [ReleaseAndClose(true, true, true)]
  }

  predicate Kept(o: Owner) {
    o.stage.Gone? && (o.calls == [RetainQuarantined] || o.calls == [ReleaseAndClose(false, true, true), RetainQuarantined])
  }

  predicate OwnerInv(o: Owner) {
    && (o.stage.Gone? ==> Closed(o) || Kept(o))
    && (!o.stage.Gone? ==> o.calls == [] && o.report.None?)
    && (o.stage.JoiningWriter? || o.stage.JoiningReader? ==> o.stopRequested)
    && (o.stage.JoiningReader? && o.stage.writerQuiesced ==> o.writerEnded)
    && (o.report == Some(Released) <==> Closed(o))
    && (o.stage.Gone? ==> o.stopRequested)
  }

  predicate OwnersInv(s: System) {
    forall id :: id in s.owners ==> OwnerInv(s.owners[id])
  }

  lemma ApplyKeepsOwners(s: System, a: Action)
    requires OwnersInv(s) && Enabled(s, a)
    ensures OwnersInv(Apply(s, a))
  {
    if (a.ReaderJoin? || a.Cancel?) && s.owners[a.id].calls == [] {
      assert [] + [] + [RetainQuarantined] == [RetainQuarantined];
      assert [] + [ReleaseAndClose(false, true, true)] + [RetainQuarantined]
          == [ReleaseAndClose(false, true, true), RetainQuarantined];
    }
  }

  // ---------------------------------------------------------------------
  // One session per device
  // ---------------------------------------------------------------------

  predicate LeasedTo(s: System, id: nat)
    requires id in s.owners
  {
    var o, lease := s.owners[id], LeaseOf(s.devices, s.owners[id].device);
    && (!o.stage.Gone? ==> lease == Some(Active))
    && (o.stage.Gone? && !Closed(o) ==> lease.Some? && lease.value.Quarantined? && id in lease.value.retained)
  }

  predicate ExclusiveInv(s: System) {
    && (forall device :: device in s.opening ==> LeaseOf(s.devices, device) == Some(Opening))
    && (forall id :: id in s.owners ==> LeasedTo(s, id))
    && (forall a, b :: a in s.owners && b in s.owners && a != b && s.owners[a].device == s.owners[b].device ==>
          Closed(s.owners[a]) || Closed(s.owners[b]))
  }

  // An operation on one device leaves every other lease alone.
  lemma OtherLeases(s: System, device: string, op: Operation<nat>, t: System)
    requires t.devices == Step(s.devices, device, op)
    ensures forall other :: other != device ==> LeaseOf(t.devices, other) == LeaseOf(s.devices, other)
    ensures LeaseOf(t.devices, device) == Moved(LeaseOf(s.devices, device), op)
  {
  }

  lemma RetainKeepsExclusive(s: System, id: nat, calls: seq<Cleanup>, report: Option<Disposition>)
    requires ExclusiveInv(s) && id in s.owners && !s.owners[id].stage.Gone? && s.owners[id].calls == []
    requires calls == [] || calls == [ReleaseAndClose(false, true, true)]
    ensures ExclusiveInv(Retain(s, id, calls, report))
  {
    var t, device := Retain(s, id, calls, report), s.owners[id].device;
    OtherLeases(s, device, Quarantine(id), t);
    assert !Closed(s.owners[id]);
    assert |t.owners[id].calls| == |calls| + 1 && t.owners[id].calls[|calls|] == RetainQuarantined;
    assert !Closed(t.owners[id]);
    forall other | other in t.owners
      ensures LeasedTo(t, other)
    {
      assert LeasedTo(s, other);
    }
  }

  lemma CloseKeepsExclusive(s: System, id: nat)
    requires ExclusiveInv(s) && id in s.owners && !s.owners[id].stage.Gone? && s.owners[id].calls == []
    requires s.owners[id].writerEnded && s.owners[id].readerEnded
    ensures ExclusiveInv(CloseOwner(s, id, true))
  {
    var t, device := CloseOwner(s, id, true), s.owners[id].device;
    OtherLeases(s, device, ReleaseActive, t);
    assert LeasedTo(s, id) && !Closed(s.owners[id]);
    assert t.owners[id].calls == [ReleaseAndClose(true, true, true)];
    forall other | other in t.owners
      ensures LeasedTo(t, other)
    {
      assert LeasedTo(s, other);
    }
  }

  lemma OpeningKeepsExclusive(s: System, a: Action)
    requires ExclusiveInv(s) && Enabled(s, a)
    requires a.ReserveDevice? || a.OpenFailed? || a.OpenerVanished? || a.Opened?
    ensures ExclusiveInv(Apply(s, a))
  {
    var t := Apply(s, a);
    var op := match a case ReserveDevice(_) => Reserve case OpenFailed(_) => ReleaseOpening
                      case OpenerVanished(_) => Quarantine(0) case _ => Activate;
    OtherLeases(s, a.device, op, t);
    forall other | other in s.owners
      ensures LeasedTo(t, other)
    {
      assert LeasedTo(s, other);
    }
    assert forall other :: other in s.owners && s.owners[other].device == a.device ==> LeasedTo(s, other);
  }

  lemma ApplyKeepsExclusive(s: System, a: Action)
    requires OwnersInv(s) && ExclusiveInv(s) && Enabled(s, a)
    ensures ExclusiveInv(Apply(s, a))
  {
    match a
    case Cancel(id) => RetainKeepsExclusive(s, id, [], None);
    case ReaderJoin(id, quiesced, closeProven) =>
      if s.owners[id].stage.writerQuiesced && quiesced {
        CloseKeepsExclusive(s, id);
        RetainKeepsExclusive(s, id, [ReleaseAndClose(false, true, true)], Some(QuarantinedOwner));
      } else {
        RetainKeepsExclusive(s, id, [], Some(QuarantinedOwner));
      }
    case ReserveDevice(_) => OpeningKeepsExclusive(s, a);
    case OpenFailed(_) => OpeningKeepsExclusive(s, a);
    case OpenerVanished(_) => OpeningKeepsExclusive(s, a);
    case Opened(_, _) => OpeningKeepsExclusive(s, a);
    case _ =>
      assert forall other :: other in s.owners ==> LeasedTo(s, other);
  }

  lemma {:induction false} RunKeeps(actions: seq<Action>, s: System)
    requires Reaches(actions, s)
    ensures OwnersInv(s) && ExclusiveInv(s)
    decreases |actions|
  {
    if actions != [] {
      var before := Run(actions[..|actions| - 1]).value;
      RunKeeps(actions[..|actions| - 1], before);
      ApplyKeepsOwners(before, actions[|actions| - 1]);
      ApplyKeepsExclusive(before, actions[|actions| - 1]);
    }
  }

  /** Every owner that is gone, by shutdown or by cancellation at any await
      point, was either closed with proof or retained in quarantine, never both
      and never twice; release and close were only ever called after both workers
      had ended and a stop was requested; and `Released` is reported exactly for
      a proven close. A living owner has had no cleanup call at all. */
  lemma OneDisposition(actions: seq<Action>, s: System, id: nat)
    requires Reaches(actions, s) && id in s.owners
    ensures var o := s.owners[id];
            && (o.stage.Gone? ==> Closed(o) || Kept(o))
            && !(Closed(o) && Kept(o))
            && (!o.stage.Gone? ==> o.calls == [])
            && (forall i :: 0 <= i < |o.calls| && o.calls[i].ReleaseAndClose? ==>
                  o.calls[i].writerEnded && o.calls[i].readerEnded && o.stopRequested)
            && (o.report == Some(Released) <==> Closed(o))
  {
    RunKeeps(actions, s);
  }

  /** A device never has two sessions of which neither was closed with proof, and
      a quarantined owner's device still retains it. */
  lemma OneSessionPerDevice(actions: seq<Action>, s: System, a: nat, b: nat)
    requires Reaches(actions, s) && a in s.owners && b in s.owners && a != b
    ensures s.owners[a].device == s.owners[b].device ==> Closed(s.owners[a]) || Closed(s.owners[b])
    ensures Kept(s.owners[a]) ==>
              var lease := LeaseOf(s.devices, s.owners[a].device);
              lease.Some? && lease.value.Quarantined? && a in lease.value.retained
  {
    RunKeeps(actions, s);
  }

  // ---------------------------------------------------------------------
  // What the actions alone say of an owner and of a device
  // ---------------------------------------------------------------------

  datatype Joins = Joins(writer: Option<bool>, reader: Option<(bool, bool)>, cancelled: bool)

  // How the joins of an owner came out, and whether it was cancelled.
  function JoinsOf(actions: seq<Action>, id: nat): Joins {
    if actions == [] then Joins(None, None, false)
    else
      var before := JoinsOf(actions[..|actions| - 1], id);
      match actions[|actions| - 1]
      case WriterJoin(i, quiesced) => if i == id then before.(writer := Some(quiesced)) else before
      case ReaderJoin(i, quiesced, proven) => if i == id then before.(reader := Some((quiesced, proven))) else before
      case Cancel(i) => if i == id then before.(cancelled := true) else before
      case _ => before
  }

  predicate BothQuiesced(j: Joins) {
    j.writer == Some(true) && j.reader.Some? && j.reader.value.0
  }

  predicate Follows(o: Owner, j: Joins) {
    match o.stage
    case JoiningReader(writer) => j == Joins(Some(writer), None, false)
    case Gone =>
      && (j.cancelled || j.reader.Some?) && !(j.cancelled && j.reader.Some?)
      && o.calls == (if !BothQuiesced(j) then [RetainQuarantined]
                     else if j.reader.value.1 then [ReleaseAndClose(true, true, true)]
                     else [ReleaseAndClose(false, true, true), RetainQuarantined])
      && o.report == (if j.cancelled then None
                      else if BothQuiesced(j) && j.reader.value.1 then Some(Released)
                      else Some(QuarantinedOwner))
    case _ => j == Joins(None, None, false)
  }

  lemma {:induction false} RunFollows(actions: seq<Action>, s: System, id: nat)
    requires Reaches(actions, s)
    ensures if id in s.owners then Follows(s.owners[id], JoinsOf(actions, id))
            else JoinsOf(actions, id) == Joins(None, None, false)
    decreases |actions|
  {
    if actions != [] {
      var before := Run(actions[..|actions| - 1]).value;
      RunKeeps(actions[..|actions| - 1], before);
      RunFollows(actions[..|actions| - 1], before, id);
      if id in before.owners {
        StepFollows(before, actions[|actions| - 1], id, JoinsOf(actions[..|actions| - 1], id));
      }
    }
  }

  lemma StepFollows(s: System, a: Action, id: nat, j: Joins)
    requires Enabled(s, a) && id in s.owners && OwnerInv(s.owners[id]) && Follows(s.owners[id], j)
    ensures id in Apply(s, a).owners
    ensures Follows(Apply(s, a).owners[id],
                    match a
                    case WriterJoin(i, quiesced) => if i == id then j.(writer := Some(quiesced)) else j
                    case ReaderJoin(i, quiesced, proven) => if i == id then j.(reader := Some((quiesced, proven))) else j
                    case Cancel(i) => if i == id then j.(cancelled := true) else j
                    case _ => j)
  {
    assert [] + [] + [RetainQuarantined] == [RetainQuarantined];
    assert [] + [ReleaseAndClose(false, true, true)] + [RetainQuarantined]
        == [ReleaseAndClose(false, true, true), RetainQuarantined];
  }

  /** The joins of a run decide an owner's fate. It is gone exactly if its reader was
      joined or it was cancelled. It is closed, and reported released, exactly if
      both joins found their worker ended and the close was proven. With an unproven
      close there is that one close and then the retention; every other end is the
      retention alone. */
  lemma DispositionMatchesRun(actions: seq<Action>, s: System, id: nat)
    requires Reaches(actions, s) && id in s.owners
    ensures var o, j := s.owners[id], JoinsOf(actions, id);
            && (o.stage.Gone? <==> j.cancelled || j.reader.Some?)
            && (Closed(o) <==> j.writer == Some(true) && j.reader == Some((true, true)))
            && (o.report == Some(Released) <==> j.writer == Some(true) && j.reader == Some((true, true)))
            && (o.calls == [ReleaseAndClose(false, true, true), RetainQuarantined] <==>
                  j.writer == Some(true) && j.reader == Some((true, false)))
            && (o.calls == [RetainQuarantined] <==> j.cancelled || (j.reader.Some? && !BothQuiesced(j)))
            && (o.report == Some(QuarantinedOwner) <==> j.reader.Some? && !(BothQuiesced(j) && j.reader.value.1))
  {
    RunKeeps(actions, s);
    RunFollows(actions, s, id);
  }

  // Whether a device is being opened: the last thing an opener did was to reserve.
  predicate OpeningIn(actions: seq<Action>, device: string) {
    actions != [] &&
      match actions[|actions| - 1]
      case ReserveDevice(d) => d == device || OpeningIn(actions[..|actions| - 1], device)
      case OpenFailed(d) => d != device && OpeningIn(actions[..|actions| - 1], device)
      case OpenerVanished(d) => d != device && OpeningIn(actions[..|actions| - 1], device)
      case Opened(d, _) => d != device && OpeningIn(actions[..|actions| - 1], device)
      case _ => OpeningIn(actions[..|actions| - 1], device)
  }

  predicate LivesOn(s: System, device: string) {
    exists id :: id in s.owners && s.owners[id].device == device && !s.owners[id].stage.Gone?
  }

  predicate KeptOn(s: System, device: string) {
    exists id :: id in s.owners && s.owners[id].device == device && Kept(s.owners[id])
  }

  // A lease has its reason: an opener, a living owner, or one that could not be
  // closed, vanished openers included.
  predicate Justified(s: System, device: string, opening: bool, vanished: bool) {
    && (device in s.opening <==> opening)
    && match LeaseOf(s.devices, device)
       case None => !vanished
       case Some(Opening) => device in s.opening && !vanished
       case Some(Active) => LivesOn(s, device) && !vanished
       case Some(Quarantined(_)) => vanished || KeptOn(s, device)
  }

  // An owner that neither goes nor comes back keeps every device's reasons.
  lemma ReasonsStay(s: System, t: System, device: string, id: nat)
    requires id in s.owners && id in t.owners && t.owners == s.owners[id := t.owners[id]]
    requires t.owners[id].device == s.owners[id].device
    requires t.owners[id].stage.Gone? == s.owners[id].stage.Gone? && t.owners[id].calls == s.owners[id].calls
    ensures LivesOn(s, device) ==> LivesOn(t, device)
    ensures KeptOn(s, device) ==> KeptOn(t, device)
  {
    OtherReasonsStay(s, t, device, id);
    if s.owners[id].device == device {
      assert !s.owners[id].stage.Gone? ==> LivesOn(t, device);
      assert Kept(s.owners[id]) ==> KeptOn(t, device);
    }
  }

  // Reasons that are not owner `id` itself.
  lemma OtherReasonsStay(s: System, t: System, device: string, id: nat)
    requires forall i :: i in s.owners && i != id ==> i in t.owners && t.owners[i] == s.owners[i]
    ensures LivesOn(s, device) ==>
              LivesOn(t, device) || (id in s.owners && s.owners[id].device == device && !s.owners[id].stage.Gone?)
    ensures KeptOn(s, device) ==>
              KeptOn(t, device) || (id in s.owners && s.owners[id].device == device && Kept(s.owners[id]))
  {
    if LivesOn(s, device) {
      var i :| i in s.owners && s.owners[i].device == device && !s.owners[i].stage.Gone?;
      assert i != id ==> t.owners[i].device == device && !t.owners[i].stage.Gone?;
    }
    if KeptOn(s, device) {
      var i :| i in s.owners && s.owners[i].device == device && Kept(s.owners[i]);
      assert i != id ==> t.owners[i].device == device && Kept(t.owners[i]);
    }
  }

  predicate StillOpening(opening: bool, a: Action, device: string) {
    match a
    case ReserveDevice(d) => d == device || opening
    case OpenFailed(d) => d != device && opening
    case OpenerVanished(d) => d != device && opening
    case Opened(d, _) => d != device && opening
    case _ => opening
  }

  lemma OpenerKeepsJustified(s: System, a: Action, device: string, opening: bool, vanished: bool)
    requires ExclusiveInv(s) && Enabled(s, a) && Justified(s, device, opening, vanished)
    requires a.ReserveDevice? || a.OpenFailed? || a.OpenerVanished? || a.Opened?
    ensures Justified(Apply(s, a), device, StillOpening(opening, a, device), vanished || a == OpenerVanished(device))
  {
    var t := Apply(s, a);
    var op := match a case ReserveDevice(_) => Reserve case OpenFailed(_) => ReleaseOpening
                      case OpenerVanished(_) => Quarantine(0) case _ => Activate;
    OtherLeases(s, a.device, op, t);
    OtherReasonsStay(s, t, device, if a.Opened? then a.id else 0);
    assert !a.Opened? ==> t.owners == s.owners;
    if a.Opened? && a.device == device {
      assert t.owners[a.id].device == device && !t.owners[a.id].stage.Gone?;
    }
  }

  lemma RetainKeepsJustified(
    s: System, id: nat, calls: seq<Cleanup>, report: Option<Disposition>, device: string, opening: bool, vanished: bool)
    requires ExclusiveInv(s) && Justified(s, device, opening, vanished)
    requires id in s.owners && !s.owners[id].stage.Gone? && s.owners[id].calls == []
    requires calls == [] || calls == [ReleaseAndClose(false, true, true)]
    ensures Justified(Retain(s, id, calls, report), device, opening, vanished)
  {
    var t := Retain(s, id, calls, report);
    OtherLeases(s, s.owners[id].device, Quarantine(id), t);
    OtherReasonsStay(s, t, device, id);
    assert [] + [] + [RetainQuarantined] == [RetainQuarantined];
    assert [] + [ReleaseAndClose(false, true, true)] + [RetainQuarantined]
        == [ReleaseAndClose(false, true, true), RetainQuarantined];
    assert Kept(t.owners[id]);
  }

  lemma CloseKeepsJustified(s: System, id: nat, device: string, opening: bool, vanished: bool)
    requires ExclusiveInv(s) && Justified(s, device, opening, vanished)
    requires id in s.owners && !s.owners[id].stage.Gone? && s.owners[id].calls == []
    ensures Justified(CloseOwner(s, id, true), device, opening, vanished)
  {
    var t := CloseOwner(s, id, true);
    assert LeasedTo(s, id);
    OtherLeases(s, s.owners[id].device, ReleaseActive, t);
    OtherReasonsStay(s, t, device, id);
  }

  lemma StepKeepsJustified(s: System, a: Action, device: string, opening: bool, vanished: bool)
    requires OwnersInv(s) && ExclusiveInv(s) && Enabled(s, a) && Justified(s, device, opening, vanished)
    ensures Justified(Apply(s, a), device, StillOpening(opening, a, device), vanished || a == OpenerVanished(device))
  {
    match a
    case Cancel(id) => RetainKeepsJustified(s, id, [], None, device, opening, vanished);
    case ReaderJoin(id, quiesced, closeProven) =>
      if s.owners[id].stage.writerQuiesced && quiesced {
        CloseKeepsJustified(s, id, device, opening, vanished);
        RetainKeepsJustified(
          s, id, [ReleaseAndClose(false, true, true)], Some(QuarantinedOwner), device, opening, vanished);
      } else {
        RetainKeepsJustified(s, id, [], Some(QuarantinedOwner), device, opening, vanished);
      }
    case WriterEnds(id) => ReasonsStay(s, Apply(s, a), device, id);
    case ReaderEnds(id) => ReasonsStay(s, Apply(s, a), device, id);
    case BeginShutdown(id, _) => ReasonsStay(s, Apply(s, a), device, id);
    case DetachSettled(id) => ReasonsStay(s, Apply(s, a), device, id);
    case WriterJoin(id, _) => ReasonsStay(s, Apply(s, a), device, id);
    case _ => OpenerKeepsJustified(s, a, device, opening, vanished);
  }

  lemma {:induction false} RunJustifies(actions: seq<Action>, s: System, device: string)
    requires Reaches(actions, s)
    ensures Justified(s, device, OpeningIn(actions, device), OpenerVanished(device) in actions)
    decreases |actions|
  {
    if actions != [] {
      var prefix, a := actions[..|actions| - 1], actions[|actions| - 1];
      var before := Run(prefix).value;
      RunKeeps(prefix, before);
      RunJustifies(prefix, before, device);
      hide Justified, OwnersInv, ExclusiveInv;
      StepKeepsJustified(before, a, device, OpeningIn(prefix, device), OpenerVanished(device) in prefix);
      assert actions == prefix + [a];
    }
  }

  /** The lease of a device, exactly: opening while an opener is at it, active while
      an owner on it lives, quarantined for good once an opener vanished or an owner
      was retained, and free in every other case. */
  lemma LeaseMatchesRun(actions: seq<Action>, s: System, device: string)
    requires Reaches(actions, s)
    ensures var lease := LeaseOf(s.devices, device);
            && (lease == Some(Opening) <==> OpeningIn(actions, device))
            && (lease == Some(Active) <==> LivesOn(s, device))
            && (lease.Some? && lease.value.Quarantined? <==> OpenerVanished(device) in actions || KeptOn(s, device))
  {
    RunKeeps(actions, s);
    RunJustifies(actions, s, device);
    if LivesOn(s, device) {
      var id :| id in s.owners && s.owners[id].device == device && !s.owners[id].stage.Gone?;
      assert LeasedTo(s, id);
    }
    if KeptOn(s, device) {
      var id :| id in s.owners && s.owners[id].device == device && Kept(s.owners[id]);
      assert LeasedTo(s, id) && !Closed(s.owners[id]);
    }
  }

  lemma Extend(actions: seq<Action>, s: System, a: Action) returns (longer: seq<Action>, after: System)
    requires Reaches(actions, s) && Enabled(s, a)
    ensures longer == actions + [a] && after == Apply(s, a) && Reaches(longer, after)
  {
    longer, after := actions + [a], Apply(s, a);
    assert longer[..|longer| - 1] == actions;
  }

  // A used owner's workers can end and be joined ...
  lemma JoinInUse(actions: seq<Action>, s: System, id: nat, detach: bool) returns (longer: seq<Action>, after: System)
    requires Reaches(actions, s) && id in s.owners && s.owners[id].stage.Using?
    ensures Reaches(longer, after) && after.devices == s.devices && after.owners.Keys == s.owners.Keys
    ensures after.owners[id].device == s.owners[id].device && after.owners[id].stage == JoiningReader(true)
    ensures after.owners[id].readerEnded
  {
    hide Reaches;
    longer, after := Extend(actions, s, WriterEnds(id));
    longer, after := Extend(longer, after, ReaderEnds(id));
    longer, after := Extend(longer, after, BeginShutdown(id, detach));
    if detach {
      longer, after := Extend(longer, after, DetachSettled(id));
    }
    longer, after := Extend(longer, after, WriterJoin(id, true));
  }

  // ... the owner be closed with proof ...
  lemma CloseInUse(actions: seq<Action>, s: System, id: nat, detach: bool) returns (longer: seq<Action>, after: System)
    requires Reaches(actions, s) && id in s.owners && s.owners[id].stage.Using?
    ensures Reaches(longer, after) && after.owners.Keys == s.owners.Keys && after.owners[id].device == s.owners[id].device
    ensures after.owners[id].report == Some(Released) && LeaseOf(after.devices, s.owners[id].device) == None
  {
    RunKeeps(actions, s);
    assert LeasedTo(s, id);
    hide Reaches, OwnersInv, ExclusiveInv;
    longer, after := JoinInUse(actions, s, id, detach);
    longer, after := Extend(longer, after, ReaderJoin(id, true, true));
  }

  /** ... and then its device can be reserved and opened again, by any new owner. */
  lemma DeviceCanBeReopened(actions: seq<Action>, s: System, id: nat, detach: bool, next: nat)
    returns (longer: seq<Action>, after: System)
    requires Reaches(actions, s) && id in s.owners && s.owners[id].stage.Using? && next !in s.owners
    ensures Reaches(longer, after) && id in after.owners && next in after.owners
    ensures after.owners[id].report == Some(Released)
    ensures after.owners[next].device == s.owners[id].device && after.owners[next].stage.Using?
  {
    longer, after := CloseInUse(actions, s, id, detach);
    hide Reaches;
    longer, after := Extend(longer, after, ReserveDevice(s.owners[id].device));
    longer, after := Extend(longer, after, Opened(s.owners[id].device, next));
  }

  /** Cancellation is possible wherever the owner is, and quarantines its device. */
  lemma LivingOwnerCanBeCancelled(actions: seq<Action>, s: System, id: nat) returns (longer: seq<Action>, after: System)
    requires Reaches(actions, s) && id in s.owners && !s.owners[id].stage.Gone?
    ensures longer == actions + [Cancel(id)] && Reaches(longer, after)
    ensures id in after.owners && after.owners[id].calls == [RetainQuarantined] && after.owners[id].report.None?
    ensures LeaseOf(after.devices, s.owners[id].device) == Some(Quarantined([id]))
  {
    RunKeeps(actions, s);
    assert LeasedTo(s, id);
    longer, after := Extend(actions, s, Cancel(id));
  }

  /** An opening that fails gives its device back. */
  lemma FailedOpeningFreesDevice(actions: seq<Action>, s: System, device: string)
    returns (longer: seq<Action>, after: System)
    requires Reaches(actions, s) && device in s.opening
    ensures longer == actions + [OpenFailed(device)] && Reaches(longer, after)
    ensures LeaseOf(after.devices, device) == None && after.owners == s.owners
  {
    RunKeeps(actions, s);
    longer, after := Extend(actions, s, OpenFailed(device));
  }
}
