/**
 Whole histories of a persistent ring: openings, rotations whose save succeeds or
 fails with the old or the new bytes on disk, and crashes at any point between.

 `Next` follows the contracts of `Open`, `RotateAt` and `EnsureCurrentAt`.
 */
module RingCrashSafety {
  import opened Basics
  import opened Persistence
  import opened PersistentRing
  import opened RatchetRing

  datatype Event =
    | Create                                  // an opening that creates the file
    | CreateFailed(written: bool)
    | Reload                                  // an opening that loads the file
    | Crash
    | Rotate(key: Key)                        // returns the key
    | RotateFailed(key: Key, written: bool)
    | Current                                 // returns the newest live key

  // `live` keeps the last live ring while the process is down.
  datatype State = State(up: bool, live: seq<Key>, disk: Disk, returned: Option<Key>)

  // A history starts with no file, or with one that would be accepted.
  predicate Startable(disk: Disk) {
    disk.Absent? || (disk.Holding? && |disk.keys| <= RATCHET_COUNT)
  }

  function HeldBy(disk: Disk): seq<Key> {
    if disk.Holding? then disk.keys else []
  }

  function Init(disk: Disk): State {
    State(false, HeldBy(disk), disk, None)
  }

  predicate Enabled(s: State, e: Event) {
    match e
    case Create => !s.up && s.disk.Absent?
    case CreateFailed(_) => !s.up && s.disk.Absent?
    case Reload => !s.up && s.disk.Holding?
    case Crash => s.up
    case Rotate(_) => s.up
    case RotateFailed(_, _) => s.up
    case Current => s.up && s.live != []
  }

  function Next(s: State, e: Event): State
    requires Enabled(s, e)
  {
    match e
    case Create => s.(up := true, live := [], disk := Holding([]))
    case CreateFailed(written) => if written then s.(disk := Holding([])) else s
    case Reload => s.(up := true, live := s.disk.keys)
    case Crash => s.(up := false)
    case Rotate(key) =>
      var keys := Rotated(s.live, RATCHET_COUNT, key);
      s.(live := keys, disk := Holding(keys), returned := Some(key))
    case RotateFailed(key, written) =>
      if written then s.(disk := Holding(Rotated(s.live, RATCHET_COUNT, key))) else s
    case Current => s.(returned := Some(s.live[0]))
  }

  function Run(disk: Disk, events: seq<Event>): Option<State> {
    if events == [] then Some(Init(disk))
    else
      match Run(disk, events[..|events| - 1])
      case None => None
      case Some(s) => if Enabled(s, events[|events| - 1]) then Some(Next(s, events[|events| - 1])) else None
  }

  ghost predicate Reaches(disk: Disk, events: seq<Event>, s: State) {
    Startable(disk) && Run(disk, events) == Some(s)
  }

  // ---------------------------------------------------------------------
  // Each call on a persistent ring is one event of this machine
  // ---------------------------------------------------------------------

  ghost predicate Matches(p: PersistentRatchetRing, who: Signer, s: State)
    requires p.Valid()
    reads p, p.ring, p.ring.buffer, p.fs
  {
    s.up && p.Live() == s.live && p.Stored(who) == s.disk
  }

  method OpenStep(codec: Codec, fs: FileSystem, path: Path, tmp: Path, who: Signer, ghost s: State)
    returns (r: Result<PersistentRatchetRing, Failure>, ghost e: Option<Event>)
    requires Lawful(codec) && tmp != path && !s.up && !s.disk.Refused? && OnDisk(codec, who, fs.files, path) == s.disk
    modifies fs
    ensures r.Ok? ==> r.value.Valid() && r.value.fs == fs && e.Some? && Enabled(s, e.value)
                      && Matches(r.value, who, Next(s, e.value))
    ensures r.Err? && e.Some? ==> Enabled(s, e.value) && OnDisk(codec, who, fs.files, path) == Next(s, e.value).disk
    ensures r.Err? && e.None? ==> OnDisk(codec, who, fs.files, path) == s.disk
  {
    r := PersistentRatchetRing.Open(codec, fs, path, tmp, who);
    if s.disk.Absent? {
      e := Some(if r.Ok? then Create else CreateFailed(OnDisk(codec, who, fs.files, path) == Holding([])));
    } else {
      e := if r.Ok? then Some(Reload) else None;
    }
  }

  method RotateStep(p: PersistentRatchetRing, who: Signer, now: Time, key: Key, tmp: Path, ghost s: State)
    returns (r: Result<Key, Failure>, ghost e: Event)
    requires p.Valid() && tmp != p.path && Matches(p, who, s)
    modifies p, p.fs
    ensures p.Valid() && Enabled(s, e) && Matches(p, who, Next(s, e))
    ensures if r.Ok? then e == Event.Rotate(key) && r.value == p.codec.publicOf(key) else e.RotateFailed? && e.key == key
  {
    r := p.RotateAt(who, now, key, tmp);
    e := if r.Ok? then Event.Rotate(key)
         else RotateFailed(key, p.Stored(who) == Holding(Rotated(s.live, RATCHET_COUNT, key)));
  }

  method EnsureCurrentStep(p: PersistentRatchetRing, who: Signer, now: Time, key: Key, tmp: Path, ghost s: State)
    returns (r: Result<Key, Failure>, ghost e: Event)
    requires p.Valid() && tmp != p.path && Matches(p, who, s)
    modifies p, p.fs
    ensures p.Valid() && Enabled(s, e) && Matches(p, who, Next(s, e))
    ensures if r.Ok? then (e == Current || e == Event.Rotate(key)) && Next(s, e).returned.Some?
                          && r.value == p.codec.publicOf(Next(s, e).returned.value)
            else e.RotateFailed? && e.key == key
  {
    ghost var rotates := p.Live() == [] || Due(p.ring.lastRotation, p.ring.rotationInterval, now);
    r := p.EnsureCurrentAt(who, now, key, tmp);
    e := if r.Ok? then (if rotates then Event.Rotate(key) else Current)
         else RotateFailed(key, p.Stored(who) == Holding(Rotated(s.live, RATCHET_COUNT, key)));
  }

  // Every key stored at the start or generated since, also by rotations that failed.
  function AllKeys(disk: Disk, events: seq<Event>): seq<Key> {
    if events == [] then HeldBy(disk) else AllKeys(disk, events[..|events| - 1]) + NewKey(events[|events| - 1])
  }

  function NewKey(e: Event): seq<Key> {
    if e.Rotate? || e.RotateFailed? then [e.key] else []
  }

  ghost predicate Distinct(keys: seq<Key>) {
    forall i, j :: 0 <= i < j < |keys| ==> keys[i] != keys[j]
  }

  // How far the stored and the live ring have moved past the key returned last:
  // reloads that picked up a rotation reported as failed, and whether one more
  // such rotation is waiting on disk.
  datatype Lag = Lag(adopted: nat, pending: bool)

  function LagNext(lag: Lag, e: Event): Lag {
    match e
    case Rotate(_) => Lag(0, false)
    case RotateFailed(_, written) => if written then lag.(pending := true) else lag
    case Reload => Lag(lag.adopted + (if lag.pending then 1 else 0), false)
    case Current => lag.(adopted := 0)
    case _ => lag
  }

  function LagAfter(events: seq<Event>): Lag {
    if events == [] then Lag(0, false) else LagNext(LagAfter(events[..|events| - 1]), events[|events| - 1])
  }

  ghost predicate DiskInv(s: State, lag: Lag) {
    && Distinct(s.live) && |s.live| <= RATCHET_COUNT && !s.disk.Refused?
    && (s.disk.Absent? ==> !s.up && s.live == [] && s.returned.None? && !lag.pending)
    && (s.disk.Holding? && !lag.pending ==> s.disk.keys == s.live)
    && (lag.pending ==> s.disk.Holding? && s.disk.keys != [] && s.disk.keys[0] !in s.live
                        && s.disk.keys == Rotated(s.live, RATCHET_COUNT, s.disk.keys[0]))
  }

  ghost predicate ReturnedInv(s: State, lag: Lag) {
    s.returned.Some? ==>
      && (lag.adopted < RATCHET_COUNT ==> lag.adopted < |s.live| && s.live[lag.adopted] == s.returned.value)
      && (lag.adopted >= RATCHET_COUNT ==> s.returned.value !in s.live)
      && (lag.pending && s.disk.Holding? && s.disk.keys != [] ==> s.disk.keys[0] != s.returned.value)
  }

  ghost predicate Known(s: State, keys: seq<Key>) {
    && (forall i :: 0 <= i < |s.live| ==> s.live[i] in keys)
    && (s.disk.Holding? ==> forall i :: 0 <= i < |s.disk.keys| ==> s.disk.keys[i] in keys)
    && (s.returned.Some? ==> s.returned.value in keys)
  }

  lemma NextKnows(s: State, e: Event, keys: seq<Key>)
    requires Enabled(s, e) && Known(s, keys)
    ensures Known(Next(s, e), keys + NewKey(e))
  {
  }

  lemma NextKeepsDisk(s: State, e: Event, lag: Lag)
    requires Enabled(s, e) && DiskInv(s, lag)
    requires e.Rotate? || e.RotateFailed? ==> e.key !in s.live
    ensures DiskInv(Next(s, e), LagNext(lag, e))
  {
    if e.Rotate? || e.RotateFailed? {
      RotatedIsDistinct(s.live, e.key);
    }
  }

  lemma RotatedIsDistinct(live: seq<Key>, key: Key)
    requires Distinct(live) && key !in live && |live| <= RATCHET_COUNT
    ensures Distinct(Rotated(live, RATCHET_COUNT, key)) && |Rotated(live, RATCHET_COUNT, key)| <= RATCHET_COUNT
  {
  }

  lemma NextKeepsReturned(s: State, e: Event, lag: Lag)
    requires Enabled(s, e) && DiskInv(s, lag) && ReturnedInv(s, lag)
    requires e.Rotate? || e.RotateFailed? ==> e.key !in s.live && s.returned != Some(e.key)
    ensures ReturnedInv(Next(s, e), LagNext(lag, e))
  {
    if e.Reload? && lag.pending {
      ReloadShifts(s, lag);
    }
  }

  // A reload that picks up a waiting rotation moves every key one place back.
  lemma ReloadShifts(s: State, lag: Lag)
    requires Enabled(s, Reload) && DiskInv(s, lag) && ReturnedInv(s, lag) && lag.pending
    ensures ReturnedInv(Next(s, Reload), Lag(lag.adopted + 1, false))
  {
    var keys := s.disk.keys;
    assert keys[1..] == Shrunk(s.live, RATCHET_COUNT - 1);
    assert forall i :: 0 < i < |keys| ==> keys[i] == s.live[i - 1];
  }

  lemma {:induction false} RunKeeps(disk: Disk, events: seq<Event>, s: State)
    requires Reaches(disk, events, s) && Distinct(AllKeys(disk, events))
    ensures Known(s, AllKeys(disk, events)) && DiskInv(s, LagAfter(events)) && ReturnedInv(s, LagAfter(events))
    decreases |events|
  {
    if events != [] {
      var prefix, e := events[..|events| - 1], events[|events| - 1];
      var before := Run(disk, prefix).value;
      var keys := AllKeys(disk, prefix);
      assert keys <= AllKeys(disk, events);
      RunKeeps(disk, prefix, before);
      assert e.Rotate? || e.RotateFailed? ==> AllKeys(disk, events)[|keys|] == e.key && e.key !in keys;
      NextKnows(before, e, keys);
      NextKeepsDisk(before, e, LagAfter(prefix));
      NextKeepsReturned(before, e, LagAfter(prefix));
    }
  }

  /** Crash safety of the ring, exactly: in every history, from any file that
      would be accepted or from none, the stored ring still
      holds the key returned last if and only if fewer than RATCHET_COUNT rotations
      that were reported as failed have reached it through reloads, or wait there. */
  lemma ReturnedKeyOnDiskIff(disk: Disk, events: seq<Event>, s: State)
    requires Reaches(disk, events, s) && Distinct(AllKeys(disk, events)) && s.returned.Some?
    ensures s.disk.Holding?
    ensures var lag := LagAfter(events);
            s.returned.value in s.disk.keys <==> lag.adopted + (if lag.pending then 1 else 0) < RATCHET_COUNT
  {
    RunKeeps(disk, events, s);
    var lag, key := LagAfter(events), s.returned.value;
    if lag.pending {
      assert s.disk.keys[1..] == Shrunk(s.live, RATCHET_COUNT - 1);
      if lag.adopted + 1 < RATCHET_COUNT {
        assert s.disk.keys[lag.adopted + 1] == key;
      }
    }
  }

  predicate NoReload(events: seq<Event>) {
    forall i :: 0 <= i < |events| ==> !events[i].Reload?
  }

  /** However many saves fail after a key was returned, in whatever way, and
      wherever the process then stops: the next reload has the key. */
  lemma ReturnedKeySurvivesReload(disk: Disk, history: seq<Event>, failures: seq<Event>, s: State)
    requires history != [] && (history[|history| - 1].Rotate? || history[|history| - 1].Current?)
    requires Reaches(disk, history + failures + [Reload], s) && Distinct(AllKeys(disk, history + failures + [Reload]))
    requires NoReload(failures)
    ensures s.returned.Some? && s.returned.value in s.live && s.live == s.disk.keys
  {
    var events := history + failures;
    assert (events + [Reload])[..|events|] == events;
    NothingAdopted(history, failures);
    ReturnedStays(disk, history, failures);
    RunKeeps(disk, events + [Reload], s);
  }

  lemma {:induction false} NothingAdopted(history: seq<Event>, failures: seq<Event>)
    requires history != [] && (history[|history| - 1].Rotate? || history[|history| - 1].Current?)
    requires NoReload(failures)
    ensures LagAfter(history + failures).adopted == 0
  {
    if failures == [] {
      assert history + failures == history;
    } else {
      var n := |failures| - 1;
      assert (history + failures)[..|history| + n] == history + failures[..n];
      NothingAdopted(history, failures[..n]);
    }
  }

  lemma {:induction false} ReturnedStays(disk: Disk, history: seq<Event>, failures: seq<Event>)
    requires history != [] && (history[|history| - 1].Rotate? || history[|history| - 1].Current?)
    requires Run(disk, history + failures).Some?
    ensures Run(disk, history + failures).value.returned.Some?
  {
    if failures == [] {
      assert history + failures == history;
    } else {
      var n := |failures| - 1;
      assert (history + failures)[..|history| + n] == history + failures[..n];
      ReturnedStays(disk, history, failures[..n]);
    }
  }

  // ---------------------------------------------------------------------
  // The bound is reached
  // ---------------------------------------------------------------------

  function NthKey(n: nat): Key
    requires n < 0x1_0000
  {
    [(n / 256) as byte, (n % 256) as byte] + seq(30, i => 0)
  }

  lemma NthKeyDistinct(m: nat, n: nat)
    requires m < n < 0x1_0000
    ensures NthKey(m) != NthKey(n)
  {
    assert NthKey(m)[0] as nat * 256 + NthKey(m)[1] as nat == m;
    assert NthKey(n)[0] as nat * 256 + NthKey(n)[1] as nat == n;
  }

  function FirstKeys(n: nat): (keys: seq<Key>)
    requires n < 0x1_0000
    ensures |keys| == n && forall i :: 0 <= i < n ==> keys[i] == NthKey(i)
  {
    if n == 0 then [] else FirstKeys(n - 1) + [NthKey(n - 1)]
  }

  lemma Extend(disk: Disk, events: seq<Event>, s: State, e: Event) returns (longer: seq<Event>, after: State)
    requires Reaches(disk, events, s) && Enabled(s, e)
    ensures after == Next(s, e) && Reaches(disk, longer, after)
    ensures LagAfter(longer) == LagNext(LagAfter(events), e) && AllKeys(disk, longer) == AllKeys(disk, events) + NewKey(e)
  {
    longer, after := events + [e], Next(s, e);
    assert longer[..|longer| - 1] == events;
  }

  lemma AdoptFailedRotation(disk: Disk, events: seq<Event>, s: State, key: Key) returns (longer: seq<Event>, after: State)
    requires Reaches(disk, events, s) && s.up && s.returned.Some? && !LagAfter(events).pending
    ensures Reaches(disk, longer, after) && after.up && after.returned.Some?
    ensures LagAfter(longer) == Lag(LagAfter(events).adopted + 1, false) && AllKeys(disk, longer) == AllKeys(disk, events) + [key]
  {
    longer, after := Extend(disk, events, s, RotateFailed(key, true));
    longer, after := Extend(disk, longer, after, Crash);
    longer, after := Extend(disk, longer, after, Reload);
  }

  /** Any number of failed but written rotations can be adopted in turn. */
  lemma {:induction false} FailedRotationsAdopted(n: nat) returns (events: seq<Event>, s: State)
    requires n <= RATCHET_COUNT
    ensures Reaches(Absent, events, s) && s.up && LagAfter(events) == Lag(n, false)
    ensures s.returned.Some? && AllKeys(Absent, events) == FirstKeys(n + 1)
  {
    if n == 0 {
      events, s := Extend(Absent, [], Init(Absent), Create);
      events, s := Extend(Absent, events, s, Event.Rotate(NthKey(0)));
      assert FirstKeys(1) == [NthKey(0)];
    } else {
      events, s := FailedRotationsAdopted(n - 1);
      events, s := AdoptFailedRotation(Absent, events, s, NthKey(n));
    }
  }

  /** The bound is reached: there is a history in which RATCHET_COUNT such
      rotations push the returned key off the disk. */
  lemma ReturnedKeyCanBeLost() returns (events: seq<Event>, s: State)
    ensures Reaches(Absent, events, s) && Distinct(AllKeys(Absent, events))
    ensures s.returned.Some? && s.disk.Holding? && s.returned.value !in s.disk.keys
  {
    events, s := FailedRotationsAdopted(RATCHET_COUNT);
    var keys := AllKeys(Absent, events);
    forall i, j | 0 <= i < j < |keys| ensures keys[i] != keys[j] {
      NthKeyDistinct(i, j);
    }
    ReturnedKeyOnDiskIff(Absent, events, s);
  }
}
