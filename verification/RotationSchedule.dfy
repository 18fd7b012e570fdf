/**
 When a persistent ring rotates by itself: what `EnsureCurrentAt` does in every
 history of openings, rotations and calls, as a matter of the clock readings alone.
 */
module RotationSchedule {
  import opened Basics
  import opened Persistence
  import opened PersistentRing
  import opened RatchetRing

  datatype Event =
    | Open(empty: bool)                 // the ring is loaded or created
    | Rotation(now: Time)               // a rotation asked for succeeds
    | EnsureRotates(now: Time)          // a call for the current key rotates first
    | EnsureReturns(now: Time)          // a call for the current key finds it current

  datatype State = State(empty: bool, last: real)

  predicate Enabled(s: State, e: Event) {
    match e
    case Open(_) => true
    case Rotation(now) => Usable(now)
    case EnsureRotates(now) => Usable(now) && (s.empty || Due(s.last, RATCHET_INTERVAL, now))
    case EnsureReturns(now) => !s.empty && !Due(s.last, RATCHET_INTERVAL, now)
  }

  function Next(s: State, e: Event): State
    requires Enabled(s, e)
  {
    match e
    case Open(empty) => State(empty, 0.0)
    case Rotation(now) => State(false, now.seconds)
    case EnsureRotates(now) => State(false, now.seconds)
    case EnsureReturns(_) => s
  }

  function Run(events: seq<Event>): Option<State> {
    if events == [] then Some(State(true, 0.0))
    else
      match Run(events[..|events| - 1])
      case None => None
      case Some(s) => if Enabled(s, events[|events| - 1]) then Some(Next(s, events[|events| - 1])) else None
  }

  ghost predicate Matches(p: PersistentRatchetRing, s: State)
    requires p.Valid()
    reads p, p.ring, p.ring.buffer
  {
    (s.empty <==> p.Live() == []) && s.last == p.ring.lastRotation
  }

  /** Each call for the current key is one event of this machine, or fails and
      changes nothing here. */
  method EnsureStep(p: PersistentRatchetRing, who: Signer, now: Time, key: Key, tmp: Path, ghost s: State)
    returns (r: Result<Key, Failure>, ghost e: Event)
    requires p.Valid() && tmp != p.path && Matches(p, s)
    modifies p, p.fs
    ensures p.Valid()
    ensures r.Ok? ==> (e == EnsureRotates(now) || e == EnsureReturns(now)) && Enabled(s, e) && Matches(p, Next(s, e))
    ensures r.Err? ==> Matches(p, s)
  {
    ghost var rotates := p.Live() == [] || Due(p.ring.lastRotation, p.ring.rotationInterval, now);
    r := p.EnsureCurrentAt(who, now, key, tmp);
    e := if rotates then EnsureRotates(now) else EnsureReturns(now);
  }

  method RotateStep(p: PersistentRatchetRing, who: Signer, now: Time, key: Key, tmp: Path, ghost s: State)
    returns (r: Result<Key, Failure>)
    requires p.Valid() && tmp != p.path && Matches(p, s)
    modifies p, p.fs
    ensures p.Valid()
    ensures r.Ok? ==> Enabled(s, Rotation(now)) && Matches(p, Next(s, Rotation(now)))
    ensures r.Err? ==> Matches(p, s)
  {
    r := p.RotateAt(who, now, key, tmp);
  }

  // The reading of the last rotation since the ring was opened.
  function LastRotation(events: seq<Event>): Option<Time> {
    if events == [] then None
    else
      match events[|events| - 1]
      case Open(_) => None
      case Rotation(now) => Some(now)
      case EnsureRotates(now) => Some(now)
      case EnsureReturns(_) => LastRotation(events[..|events| - 1])
  }

  lemma {:induction false} AgeIsLastRotation(events: seq<Event>, s: State)
    requires Run(events) == Some(s)
    ensures match LastRotation(events)
            case None => s.last == 0.0
            case Some(t) => Usable(t) && s.last == t.seconds && !s.empty
    decreases |events|
  {
    if events != [] {
      AgeIsLastRotation(events[..|events| - 1], Run(events[..|events| - 1]).value);
    }
  }

  /** A ring that holds keys is due, at a usable reading, exactly if it has not rotated
      since it was opened, or rotated at time zero, which reads as an unknown age, or
      a full interval or more has passed since its last rotation. An unusable reading
      or one before the last rotation finds it current. */
  lemma EnsureRotatesIff(events: seq<Event>, s: State, now: Time)
    requires Run(events) == Some(s) && !s.empty
    ensures Enabled(s, EnsureRotates(now)) <==>
            && Usable(now)
            && match LastRotation(events)
               case None => true
               case Some(t) => Usable(t) && (t.seconds == 0.0 || now.seconds >= t.seconds + RATCHET_INTERVAL as real)
    ensures Enabled(s, EnsureReturns(now)) <==> !Enabled(s, EnsureRotates(now))
  {
    AgeIsLastRotation(events, s);
  }

  /** An empty ring always rotates first, at a usable reading. */
  lemma EmptyRingRotates(events: seq<Event>, s: State, now: Time)
    requires Run(events) == Some(s) && s.empty
    ensures Enabled(s, EnsureRotates(now)) <==> Usable(now)
    ensures !Enabled(s, EnsureReturns(now)) && LastRotation(events) == None
  {
    AgeIsLastRotation(events, s);
  }

  /** A ring can be opened again at any time, and then, if it holds keys, the next call
      at a usable reading rotates, whenever it last did. */
  lemma ReopenedRingRotates(events: seq<Event>, s: State, now: Time) returns (longer: seq<Event>, after: State)
    requires Run(events) == Some(s)
    ensures longer == events + [Open(false)] && Run(longer) == Some(after)
    ensures Enabled(after, EnsureRotates(now)) <==> Usable(now)
  {
    longer, after := events + [Open(false)], State(false, 0.0);
    assert longer[..|events|] == events;
  }
}
