/**
 The table that says who may open a USB device, and which devices are out of use
 for good because a session on them could not be closed with proof.

 The table is behind a lock, so its operations never overlap. Each is a method of
 the class and a case of `Step`; the lemmas are about every sequence of them.
 */
module UsbLeases {
  import opened Basics

  datatype Lease<R> = Opening | Active | Quarantined(retained: seq<R>)

  datatype Operation<R> = Reserve | Activate | ReleaseOpening | ReleaseActive | Quarantine(session: R)

  type Devices<R> = map<string, Lease<R>>

  function LeaseOf<R>(devices: Devices<R>, name: string): Option<Lease<R>> {
    if name in devices then Some(devices[name]) else None
  }

  // Whether an operation succeeds in a given lease state; quarantine always does.
  predicate Accepted<R>(lease: Option<Lease<R>>, op: Operation<R>) {
    match op
    case Reserve => lease.None?
    case Activate => lease.Some? && lease.value.Opening?
    case ReleaseOpening => lease.Some? && lease.value.Opening?
    case ReleaseActive => lease.Some? && lease.value.Active?
    case Quarantine(_) => true
  }

  function Moved<R>(lease: Option<Lease<R>>, op: Operation<R>): Option<Lease<R>> {
    if !Accepted(lease, op) then lease
    else
      match op
      case Reserve => Some(Opening)
      case Activate => Some(Active)
      case ReleaseOpening => None
      case ReleaseActive => None
      case Quarantine(session) =>
        if lease.Some? && lease.value.Quarantined? then Some(Quarantined(lease.value.retained + [session]))
        else Some(Quarantined([session]))
  }

  function Step<R>(devices: Devices<R>, name: string, op: Operation<R>): Devices<R> {
    match Moved(LeaseOf(devices, name), op)
    case None => devices - {name}
    case Some(lease) => devices[name := lease]
  }

  lemma StepIsLocal<R>(devices: Devices<R>, name: string, op: Operation<R>, other: string)
    ensures LeaseOf(Step(devices, name, op), other)
         == if other == name then Moved(LeaseOf(devices, name), op) else LeaseOf(devices, other)
  {
  }

  class UsbLeaseTable<R> {
    var devices: Devices<R>

    constructor ()
      ensures devices == map[]
    {
      devices := map[];
    }

    method ReserveOpening(name: string) returns (ok: bool)
      modifies this
      ensures ok == Accepted(LeaseOf(old(devices), name), Reserve)
      ensures devices == Step(old(devices), name, Reserve)
    {
      if name in devices {
        return false;
      }
      devices := devices[name := Opening];
      return true;
    }

    method ActivateLease(name: string) returns (ok: bool)
      modifies this
      ensures ok == Accepted(LeaseOf(old(devices), name), Activate)
      ensures devices == Step(old(devices), name, Activate)
    {
      if name in devices && devices[name].Opening? {
        devices := devices[name := Active];
        return true;
      }
      return false;
    }

    method ReleaseOpeningLease(name: string) returns (ok: bool)
      modifies this
      ensures ok == Accepted(LeaseOf(old(devices), name), ReleaseOpening)
      ensures devices == Step(old(devices), name, ReleaseOpening)
    {
      if name in devices && devices[name].Opening? {
        devices := devices - {name};
        return true;
      }
      return false;
    }

    method ReleaseActiveLease(name: string) returns (ok: bool)
      modifies this
      ensures ok == Accepted(LeaseOf(old(devices), name), ReleaseActive)
      ensures devices == Step(old(devices), name, ReleaseActive)
    {
      if name in devices && devices[name].Active? {
        devices := devices - {name};
        return true;
      }
      return false;
    }

    method QuarantineDevice(name: string, session: R)
      modifies this
      ensures devices == Step(old(devices), name, Quarantine(session))
    {
      if name in devices && devices[name].Quarantined? {
        devices := devices[name := Quarantined(devices[name].retained + [session])];
      } else {
        devices := devices[name := Quarantined([session])];
      }
    }
  }

  // ---------------------------------------------------------------------
  // Whole histories
  // ---------------------------------------------------------------------

  datatype Entry<R> = Entry(name: string, op: Operation<R>)

  function After<R>(log: seq<Entry<R>>): Devices<R> {
    if log == [] then map[]
    else Step(After(log[..|log| - 1]), log[|log| - 1].name, log[|log| - 1].op)
  }

  // Every session ever quarantined for a device, in order.
  function Retained<R>(log: seq<Entry<R>>, name: string): seq<R> {
    if log == [] then []
    else
      var last := log[|log| - 1];
      Retained(log[..|log| - 1], name) + if last.name == name && last.op.Quarantine? then [last.op.session] else []
  }

  // Reservations granted for a device minus reservations given back.
  function Outstanding<R>(log: seq<Entry<R>>, name: string): int {
    if log == [] then 0
    else
      var before, last := log[..|log| - 1], log[|log| - 1];
      Outstanding(before, name) +
      if last.name != name || !Accepted(LeaseOf(After(before), name), last.op) then 0
      else if last.op.Reserve? then 1
      else if last.op.ReleaseOpening? || last.op.ReleaseActive? then -1
      else 0
  }

  /** A device is quarantined exactly when something was ever quarantined for it,
      and then it retains every such session in order; otherwise it is leased
      exactly when one reservation is outstanding, and never more than one is. */
  lemma {:induction false} LeaseMatchesHistory<R>(log: seq<Entry<R>>, name: string)
    ensures var lease := LeaseOf(After(log), name);
            && (Retained(log, name) != [] <==> lease.Some? && lease.value.Quarantined?)
            && (Retained(log, name) != [] ==> lease.value.retained == Retained(log, name))
            && (Retained(log, name) == [] ==> Outstanding(log, name) == if lease.Some? then 1 else 0)
  {
    if log != [] {
      var before, last := log[..|log| - 1], log[|log| - 1];
      LeaseMatchesHistory(before, name);
      StepIsLocal(After(before), last.name, last.op, name);
    }
  }

  lemma {:induction false} RetainedGrows<R>(log: seq<Entry<R>>, more: seq<Entry<R>>, name: string)
    ensures Retained(log, name) <= Retained(log + more, name)
  {
    if more == [] {
      assert log + more == log;
    } else {
      var n := |more| - 1;
      RetainedGrows(log, more[..n], name);
      assert (log + more)[..|log + more| - 1] == log + more[..n];
    }
  }

  /** Quarantine is permanent: after any further operations by anyone, the device
      is still quarantined, still retains the same sessions first, and refuses
      every operation but another quarantine. */
  lemma QuarantineIsPermanent<R>(log: seq<Entry<R>>, more: seq<Entry<R>>, name: string, op: Operation<R>)
    requires LeaseOf(After(log), name).Some? && LeaseOf(After(log), name).value.Quarantined?
    ensures var later := LeaseOf(After(log + more), name);
            && later.Some? && later.value.Quarantined?
            && LeaseOf(After(log), name).value.retained <= later.value.retained
            && (Accepted(later, op) ==> op.Quarantine?)
  {
    LeaseMatchesHistory(log, name);
    LeaseMatchesHistory(log + more, name);
    RetainedGrows(log, more, name);
  }
}
