/** The 40-bit announce time as it appears on the wire. */
module WireTime {
  import opened Basics

  const ANNOUNCE_TIME_MAX: nat := 0xFF_FFFF_FFFF

  function BigEndian(value: nat, width: nat): (bytes: seq<byte>)
    ensures |bytes| == width
  {
    if width == 0 then [] else BigEndian(value / 256, width - 1) + [(value % 256) as byte]
  }

  // The low five of eight big-endian bytes.
  function WireBytes(time: nat): (bytes: seq<byte>)
    ensures |bytes| == 5
  {
    BigEndian(time, 8)[3..8]
  }

  function FromBigEndian(bytes: seq<byte>): nat {
    if bytes == [] then 0 else FromBigEndian(bytes[..|bytes| - 1]) * 256 + bytes[|bytes| - 1] as nat
  }

  predicate LexLess(a: seq<byte>, b: seq<byte>) {
    if a == [] || b == [] then a == [] && b != []
    else a[0] < b[0] || (a[0] == b[0] && LexLess(a[1..], b[1..]))
  }

  lemma {:induction false} LowBytes(value: nat, extra: nat, width: nat)
    ensures BigEndian(value, extra + width)[extra..] == BigEndian(value, width)
  {
    if width > 0 {
      LowBytes(value / 256, extra, width - 1);
    }
  }

  // Appending one byte to each of two equally long strings.
  lemma {:induction false} LexAppend(a: seq<byte>, b: seq<byte>, x: byte, y: byte)
    requires |a| == |b|
    ensures LexLess(a + [x], b + [y]) <==> LexLess(a, b) || (a == b && x < y)
  {
    if a == [] {
      assert (a + [x])[1..] == [] == (b + [y])[1..];
    } else {
      assert (a + [x])[1..] == a[1..] + [x] && (b + [y])[1..] == b[1..] + [y];
      LexAppend(a[1..], b[1..], x, y);
      assert a == [a[0]] + a[1..] && b == [b[0]] + b[1..];
    }
  }

  function Power256(n: nat): nat {
    if n == 0 then 1 else 256 * Power256(n - 1)
  }

  lemma {:induction false} BigEndianOrder(s: nat, t: nat, width: nat)
    requires s < Power256(width) && t < Power256(width)
    ensures LexLess(BigEndian(s, width), BigEndian(t, width)) <==> s < t
    ensures BigEndian(s, width) == BigEndian(t, width) <==> s == t
  {
    if width > 0 {
      var a, b := BigEndian(s / 256, width - 1), BigEndian(t / 256, width - 1);
      BigEndianOrder(s / 256, t / 256, width - 1);
      LexAppend(a, b, (s % 256) as byte, (t % 256) as byte);
      var x, y := BigEndian(s, width), BigEndian(t, width);
      assert x[..width - 1] == a && y[..width - 1] == b;
    }
  }

  lemma {:induction false} BigEndianRoundTrip(value: nat, width: nat)
    requires value < Power256(width)
    ensures FromBigEndian(BigEndian(value, width)) == value
  {
    if width > 0 {
      BigEndianRoundTrip(value / 256, width - 1);
      assert BigEndian(value, width)[..width - 1] == BigEndian(value / 256, width - 1);
    }
  }

  /** On the whole 40-bit range the wire bytes order exactly as the times do, and
      determine the time. */
  lemma WireOrder(s: nat, t: nat)
    requires s <= ANNOUNCE_TIME_MAX && t <= ANNOUNCE_TIME_MAX
    ensures LexLess(WireBytes(s), WireBytes(t)) <==> s < t
    ensures WireBytes(s) == WireBytes(t) <==> s == t
  {
    LowBytes(s, 3, 5);
    LowBytes(t, 3, 5);
    assert WireBytes(s) == BigEndian(s, 5) && WireBytes(t) == BigEndian(t, 5);
    assert Power256(5) == 256 * (256 * (256 * (256 * 256))) == ANNOUNCE_TIME_MAX + 1;
    BigEndianOrder(s, t, 5);
  }
}

/**
 The signed record of the last announce time and rotation time of a destination.

 An announce time is planned on a copy, saved, and only a successful save lets
 the announce out.
 */
module AnnounceState {
  import opened Basics
  import opened Persistence
  import opened WireTime

  const CONTROL_STATE_VERSION: byte := 1
  const CONTROL_STATE_MAX_BYTES: nat := 4096

  // A 64-bit count of seconds.
  type Seconds = n: nat | n < 0x1_0000_0000_0000_0000

  datatype Control = Control(
    identity: Hash, destination: Hash, lastRotation: Option<Seconds>, lastAnnounce: Option<Seconds>)

  function New(identity: Hash, destination: Hash): Control {
    Control(identity, destination, None, None)
  }

  predicate Valid(c: Control) {
    c.lastAnnounce.Some? ==> c.lastAnnounce.value <= ANNOUNCE_TIME_MAX
  }

  datatype Plan = TimeTooLarge | Deferred | Candidate(control: Control)

  // An announce time is the clock reading itself, or there is none.
  function PrepareAnnounce(c: Control, wall: Seconds): Plan {
    if wall > ANNOUNCE_TIME_MAX then TimeTooLarge
    else if c.lastAnnounce.Some? && wall <= c.lastAnnounce.value then Deferred
    else Candidate(c.(lastAnnounce := Some(wall)))
  }

  /** A reading is planned exactly if it fits 40 bits and is later than the last one;
      the candidate records it and keeps all else. The other two outcomes are a
      reading out of range and one that is not later. */
  lemma PlannedIff(c: Control, wall: Seconds)
    ensures var p := PrepareAnnounce(c, wall);
            && (p == Candidate(Control(c.identity, c.destination, c.lastRotation, Some(wall))) <==>
                  wall <= ANNOUNCE_TIME_MAX && (c.lastAnnounce.None? || wall > c.lastAnnounce.value))
            && (p == TimeTooLarge <==> wall > ANNOUNCE_TIME_MAX)
            && (p == Deferred <==>
                  wall <= ANNOUNCE_TIME_MAX && c.lastAnnounce.Some? && wall <= c.lastAnnounce.value)
  {
  }

  // Rotation is due once the clock is a full interval past a known rotation.
  predicate RotationDue(c: Control, wall: Seconds, interval: nat) {
    c.lastRotation.Some? && wall >= c.lastRotation.value && wall - c.lastRotation.value >= interval
  }

  function Anchored(c: Control, wall: Seconds): Control {
    if c.lastRotation.None? then c.(lastRotation := Some(wall)) else c
  }

  function WithRotation(c: Control, wall: Seconds): Control {
    c.(lastRotation := Some(wall))
  }

  /** Anchoring starts exactly one interval: no rotation is due before the
      anchor, and a known age is never moved. */
  lemma AnchorStartsInterval(c: Control, wall: Seconds, later: Seconds, interval: nat)
    ensures Anchored(Anchored(c, wall), later) == Anchored(c, wall)
    ensures c.lastRotation.None? ==> (RotationDue(Anchored(c, wall), later, interval) <==> later >= wall + interval)
    ensures RotationDue(WithRotation(c, wall), later, interval) <==> later >= wall + interval
  {
  }

  // ---------------------------------------------------------------------
  // Saving and loading
  // ---------------------------------------------------------------------

  datatype Envelope = Envelope(version: byte, body: Control, signature: Signature)

  // Signatures of an identity, by its hash, and the envelope's encoding.
  datatype Codec = Codec(
    sign: (Hash, Control) -> Option<Signature>,
    verifies: (Hash, byte, Control, Signature) -> bool,
    encode: Envelope -> seq<byte>,
    decode: seq<byte> -> Option<Envelope>)

  ghost predicate Lawful(k: Codec) {
    && (forall who, c :: k.sign(who, c).Some? ==>
          k.verifies(who, CONTROL_STATE_VERSION, c, k.sign(who, c).value))
    && (forall e {:trigger k.encode(e)} :: k.decode(k.encode(e)) == Some(e))
  }

  // One such codec: every field at a fixed place.
  function OptionBytes(field: Option<Seconds>): (bytes: seq<byte>)
    ensures |bytes| == 9
  {
    if field.Some? then [1] + BigEndian(field.value, 8) else seq(9, i => 0)
  }

  function OptionOf(bytes: seq<byte>): Option<Seconds>
    requires |bytes| == 9
  {
    var n := FromBigEndian(bytes[1..]);
    if bytes[0] == 1 && n < 0x1_0000_0000_0000_0000 then Some(n) else None
  }

  lemma OptionRoundTrip(field: Option<Seconds>)
    ensures OptionOf(OptionBytes(field)) == field
  {
    if field.Some? {
      assert Power256(8) == 256 * (256 * (256 * (256 * (256 * (256 * (256 * 256)))))) == 0x1_0000_0000_0000_0000;
      BigEndianRoundTrip(field.value, 8);
      assert OptionBytes(field)[1..] == BigEndian(field.value, 8);
    }
  }

  function Fields(e: Envelope): (bytes: seq<byte>)
    ensures |bytes| == 115
  {
    var c := e.body;
    [e.version] + (c.identity + (c.destination + (OptionBytes(c.lastRotation) + (OptionBytes(c.lastAnnounce) + e.signature))))
  }

  function FromFields(bytes: seq<byte>): Option<Envelope> {
    if |bytes| != 115 then None
    else
      var c := Control(bytes[1..17], bytes[17..33], OptionOf(bytes[33..42]), OptionOf(bytes[42..51]));
      Some(Envelope(bytes[0], c, bytes[51..]))
  }

  lemma FieldsRoundTrip(e: Envelope)
    ensures FromFields(Fields(e)) == Some(e)
  {
    var c, bytes := e.body, Fields(e);
    FieldSlices(e);
    OptionRoundTrip(c.lastRotation);
    OptionRoundTrip(c.lastAnnounce);
    hide Fields;
  }

  lemma FieldSlices(e: Envelope)
    ensures var c, bytes := e.body, Fields(e);
            && bytes[0] == e.version && bytes[1..17] == c.identity && bytes[17..33] == c.destination
            && bytes[33..42] == OptionBytes(c.lastRotation) && bytes[42..51] == OptionBytes(c.lastAnnounce)
            && bytes[51..] == e.signature
  {
    hide OptionBytes;
  }

  // Identities are told apart by one byte of their hash.
  function MarkOf(who: Hash): Signature {
    seq(64, i => who[0])
  }

  const PLAIN_CODEC: Codec := Codec(
    (who: Hash, c) => Some(MarkOf(who)),
    (who: Hash, version, c, signature) => version == CONTROL_STATE_VERSION && signature == MarkOf(who),
    e => Fields(e), data => FromFields(data))

  // Only the identity itself makes what verifies for it.
  ghost predicate Unforgeable(k: Codec) {
    forall who, version, c, signature: Signature :: k.verifies(who, version, c, signature) ==>
      version == CONTROL_STATE_VERSION && k.sign(who, c) == Some(signature)
  }

  /** The laws can be met, with signatures that cannot be forged. */
  lemma PlainCodecIsLawful()
    ensures Lawful(PLAIN_CODEC) && Unforgeable(PLAIN_CODEC)
  {
    forall e
      ensures PLAIN_CODEC.decode(PLAIN_CODEC.encode(e)) == Some(e)
    {
      FieldsRoundTrip(e);
    }
  }

  function Accepted(k: Codec, who: Hash, destination: Hash, data: seq<byte>): (c: Option<Control>)
    ensures c.Some? ==> c.value.identity == who && c.value.destination == destination && Valid(c.value)
  {
    match k.decode(data)
    case None => None
    case Some(Envelope(version, body, signature)) =>
      if |data| > CONTROL_STATE_MAX_BYTES || !k.verifies(who, version, body, signature) then None
      else if version != CONTROL_STATE_VERSION || body.identity != who || body.destination != destination then None
      else if Valid(body) then Some(body) else None
  }

  /** A stored state is accepted exactly if it decodes within the limit to a body of
      this version, bound to this identity and destination and in range, whose
      signature verifies for this identity. */
  lemma AcceptedIff(k: Codec, who: Hash, destination: Hash, data: seq<byte>, c: Control)
    ensures Accepted(k, who, destination, data) == Some(c) <==>
            && |data| <= CONTROL_STATE_MAX_BYTES && k.decode(data).Some?
            && var e := k.decode(data).value;
               && e.version == CONTROL_STATE_VERSION && e.body == c
               && c.identity == who && c.destination == destination && Valid(c)
               && k.verifies(who, e.version, c, e.signature)
  {
  }

  /** What loads was signed by this identity: with signatures that cannot be forged,
      a state carries the very signature this identity makes for it. */
  lemma AcceptedIsSigned(k: Codec, who: Hash, destination: Hash, data: seq<byte>)
    requires Unforgeable(k) && Accepted(k, who, destination, data).Some?
    ensures k.decode(data).Some?
    ensures k.sign(who, Accepted(k, who, destination, data).value) == Some(k.decode(data).value.signature)
  {
  }

  datatype Disk = Absent | Refused | Holding(control: Control)

  function OnDisk(k: Codec, who: Hash, destination: Hash, files: map<Path, seq<byte>>, path: Path): Disk {
    match Holds(files, path)
    case None => Absent
    case Some(data) =>
      match Accepted(k, who, destination, data)
      case None => Refused
      case Some(c) => Holding(c)
  }

  /** Only the identity a state is bound to can save it. A success makes it the
      stored state for that identity and destination; an error leaves there the
      former content or this one. */
  method SaveVerified(k: Codec, who: Hash, fs: FileSystem, path: Path, tmp: Path, c: Control) returns (ok: bool)
    requires Lawful(k) && tmp != path
    modifies fs
    ensures fs.faults >= old(fs.faults) && (ok ==> who == c.identity && Valid(c))
    ensures !ok && who == c.identity && Valid(c) && k.sign(who, c).Some?
              && |k.encode(Envelope(CONTROL_STATE_VERSION, c, k.sign(who, c).value))| <= CONTROL_STATE_MAX_BYTES ==>
              fs.faults > old(fs.faults) || tmp in old(fs.files)
    ensures ok ==> OnDisk(k, who, c.destination, fs.files, path) == Holding(c)
    ensures !ok ==> OnDisk(k, who, c.destination, fs.files, path) in
                      {Holding(c), old(OnDisk(k, who, c.destination, fs.files, path))}
  {
    if who != c.identity || (c.lastAnnounce.Some? && c.lastAnnounce.value > ANNOUNCE_TIME_MAX) {
      return false;
    }
    var signature := k.sign(who, c);
    if signature.None? {
      return false;
    }
    var encoded := k.encode(Envelope(CONTROL_STATE_VERSION, c, signature.value));
    if |encoded| > CONTROL_STATE_MAX_BYTES {
      return false;
    }
    assert Accepted(k, who, c.destination, encoded) == Some(c);
    ok := fs.AtomicWrite(path, tmp, encoded);
  }

  method LoadVerified(k: Codec, who: Hash, destination: Hash, fs: FileSystem, path: Path)
    returns (c: Option<Control>)
    modifies fs`faults
    ensures fs.faults >= old(fs.faults)
    ensures c.None? ==> fs.faults > old(fs.faults) || !OnDisk(k, who, destination, fs.files, path).Holding?
    ensures c.Some? ==> OnDisk(k, who, destination, fs.files, path) == Holding(c.value)
    ensures c.Some? ==> c.value.identity == who && c.value.destination == destination && Valid(c.value)
  {
    var data := fs.ReadSecretFile(path, CONTROL_STATE_MAX_BYTES);
    if data.None? {
      return None;
    }
    return Accepted(k, who, destination, data.value);
  }

  // ---------------------------------------------------------------------
  // Histories under persist-before-emit
  // ---------------------------------------------------------------------

  datatype Save = Saved | FailedOld | FailedNew

  datatype Event =
    | Boot                                  // no file: a new state
    | Reload
    | Crash
    | Anchor(wall: Seconds)
    | Rotation(wall: Seconds, save: Save)
    | Announce(wall: Seconds, save: Save)   // plan at this clock reading and save
    | Emit(wall: Seconds)                   // release the oldest saved announce, at this clock reading

  // A saved time whose announce is not out yet, and the event that planned it.
  datatype Ticket = Ticket(time: Seconds, planned: nat)

  // An announce that went out: the time it carries, the clock at that moment, and
  // the events that planned and released it.
  datatype Emission = Emission(time: Seconds, clock: Seconds, planned: nat, released: nat)

  // `live` keeps the last live state while the process is down; saved announces are
  // released in the order of their saves.
  datatype State = State(
    up: bool, live: Control, disk: Disk, steps: nat, outbox: seq<Ticket>, emitted: seq<Emission>)

  // A history starts with no file, or with a state that would be accepted.
  predicate Startable(identity: Hash, destination: Hash, disk: Disk) {
    disk.Absent? ||
    (disk.Holding? && disk.control.identity == identity && disk.control.destination == destination && Valid(disk.control))
  }

  function Init(identity: Hash, destination: Hash, disk: Disk): State {
    State(false, if disk.Holding? then disk.control else New(identity, destination), disk, 0, [], [])
  }

  predicate Enabled(s: State, e: Event) {
    match e
    case Boot => !s.up && s.disk.Absent?
    case Reload => !s.up && s.disk.Holding?
    case Crash => s.up
    case Anchor(_) => s.up
    case Rotation(_, _) => s.up
    case Announce(_, _) => s.up
    case Emit(_) => s.up && s.outbox != []
  }

  function Attempt(s: State, candidate: Control, save: Save): State {
    match save
    case Saved => s.(live := candidate, disk := Holding(candidate))
    case FailedOld => s
    case FailedNew => s.(disk := Holding(candidate))
  }

  function Effect(s: State, e: Event): State
    requires Enabled(s, e)
  {
    match e
    case Boot => s.(up := true, live := New(s.live.identity, s.live.destination))
    case Reload => s.(up := true, live := s.disk.control)
    case Crash => s.(up := false, outbox := [])
    case Anchor(wall) => s.(live := Anchored(s.live, wall))
    case Rotation(wall, save) => Attempt(s, WithRotation(s.live, wall), save)
    case Announce(wall, save) =>
      (match PrepareAnnounce(s.live, wall)
       case Candidate(c) =>
         var t := Attempt(s, c, save);
         if save.Saved? then t.(outbox := s.outbox + [Ticket(wall, s.steps)]) else t
       case _ => s)
    case Emit(wall) =>
      var t := s.outbox[0];
      s.(outbox := s.outbox[1..], emitted := s.emitted + [Emission(t.time, wall, t.planned, s.steps)])
  }

  function Next(s: State, e: Event): State
    requires Enabled(s, e)
  {
    Effect(s, e).(steps := s.steps + 1)
  }

  /** Planning, saving and committing one announce is one event of this machine;
      the announce may go out exactly when the event puts it into the outbox. */
  method AnnounceStep(k: Codec, fs: FileSystem, path: Path, tmp: Path, live: Control, wall: Seconds, ghost s: State)
    returns (now: Control, send: bool, ghost e: Event)
    requires Lawful(k) && tmp != path && s.up && s.live == live && !s.disk.Refused?
    requires OnDisk(k, live.identity, live.destination, fs.files, path) == s.disk
    modifies fs
    ensures e.Announce? && e.wall == wall && Enabled(s, e)
    ensures now == Next(s, e).live && OnDisk(k, live.identity, live.destination, fs.files, path) == Next(s, e).disk
    ensures Next(s, e).outbox == s.outbox + if send then [Ticket(wall, s.steps)] else []
  {
    now, send, e := live, false, Announce(wall, FailedOld);
    match PrepareAnnounce(live, wall) {
      case Candidate(c) =>
        send := SaveVerified(k, live.identity, fs, path, tmp, c);
        if send {
          now, e := c, Announce(wall, Saved);
        } else if OnDisk(k, live.identity, live.destination, fs.files, path) == Holding(c) {
          e := Announce(wall, FailedNew);
        }
      case _ =>
    }
  }

  /** Loading is the reload event: the live state becomes the one on disk. */
  method ReloadStep(k: Codec, fs: FileSystem, path: Path, who: Hash, destination: Hash, ghost s: State)
    returns (c: Option<Control>)
    requires !s.up && OnDisk(k, who, destination, fs.files, path) == s.disk
    modifies fs`faults
    ensures c.Some? ==> Enabled(s, Reload) && Next(s, Reload).up && Next(s, Reload).live == c.value
    ensures c.None? ==> fs.faults > old(fs.faults) || !Enabled(s, Reload)
  {
    c := LoadVerified(k, who, destination, fs, path);
  }

  function Run(start: State, events: seq<Event>): Option<State> {
    if events == [] then Some(start)
    else
      match Run(start, events[..|events| - 1])
      case None => None
      case Some(s) => if Enabled(s, events[|events| - 1]) then Some(Next(s, events[|events| - 1])) else None
  }

  ghost predicate Reaches(identity: Hash, destination: Hash, disk: Disk, events: seq<Event>, s: State) {
    Startable(identity, destination, disk) && Run(Init(identity, destination, disk), events) == Some(s)
  }

  // The state has recorded `time` or something later.
  predicate Covers(c: Control, time: nat) {
    c.lastAnnounce.Some? && time <= c.lastAnnounce.value
  }

  predicate Recorded(s: State, time: nat) {
    Covers(s.live, time) && s.disk.Holding? && Covers(s.disk.control, time)
  }

  // Later than the last announce on record before the history began.
  predicate Newer(disk: Disk, time: nat) {
    disk.Holding? && disk.control.lastAnnounce.Some? ==> disk.control.lastAnnounce.value < time
  }

  predicate ValidInv(s: State) {
    Valid(s.live) && (s.disk.Holding? ==> Valid(s.disk.control)) && !s.disk.Refused?
  }

  // Everything saved or emitted is on record, and so is what was before.
  predicate RecordInv(s: State, start: Disk) {
    && (start.Holding? && start.control.lastAnnounce.Some? ==> Recorded(s, start.control.lastAnnounce.value))
    && (forall i :: 0 <= i < |s.emitted| ==> Recorded(s, s.emitted[i].time) && Newer(start, s.emitted[i].time))
    && (forall i :: 0 <= i < |s.outbox| ==> Recorded(s, s.outbox[i].time) && Newer(start, s.outbox[i].time))
  }

  predicate InOrder(emitted: seq<Emission>, outbox: seq<Ticket>) {
    && (forall i, j :: 0 <= i < j < |emitted| ==> emitted[i].time < emitted[j].time)
    && (forall i, j :: 0 <= i < j < |outbox| ==> outbox[i].time < outbox[j].time)
    && (forall i, j :: 0 <= i < |emitted| && 0 <= j < |outbox| ==> emitted[i].time < outbox[j].time)
  }

  lemma NextKeepsValid(s: State, e: Event)
    requires ValidInv(s) && Enabled(s, e)
    ensures ValidInv(Next(s, e))
  {
  }

  lemma RecordedStays(s: State, e: Event, time: nat)
    requires Recorded(s, time) && Enabled(s, e)
    ensures Recorded(Next(s, e), time)
  {
  }

  // Only a saved announce adds a ticket, for a time newer than all on record.
  lemma NewTicket(s: State, e: Event)
    requires Enabled(s, e)
    ensures var t := Next(s, e);
            || (t.emitted == s.emitted && (t.outbox == s.outbox || t.outbox == []))
            || (e.Emit? && s.outbox != [] && t.outbox == s.outbox[1..]
                && t.emitted == s.emitted + [Emission(s.outbox[0].time, e.wall, s.outbox[0].planned, s.steps)])
            || (e.Announce? && t.emitted == s.emitted && t.outbox == s.outbox + [Ticket(e.wall, s.steps)]
                && Recorded(t, e.wall) && !Covers(s.live, e.wall))
  {
  }

  lemma RecordedIsOlder(s: State, time: nat, wall: nat)
    requires Recorded(s, time) && !Covers(s.live, wall)
    ensures time < wall
  {
  }

  lemma NextKeepsRecord(s: State, e: Event, start: Disk)
    requires RecordInv(s, start) && Enabled(s, e)
    ensures RecordInv(Next(s, e), start)
  {
    NewTicket(s, e);
    hide Next, Enabled, Recorded, Covers;
    forall time: nat | Recorded(s, time)
      ensures Recorded(Next(s, e), time)
      ensures e.Announce? && !Covers(s.live, e.wall) ==> time < e.wall
    {
      RecordedStays(s, e, time);
      if e.Announce? && !Covers(s.live, e.wall) {
        RecordedIsOlder(s, time, e.wall);
      }
    }
  }

  lemma NextKeepsOrder(s: State, e: Event, start: Disk)
    requires RecordInv(s, start) && InOrder(s.emitted, s.outbox) && Enabled(s, e)
    ensures InOrder(Next(s, e).emitted, Next(s, e).outbox)
  {
    NewTicket(s, e);
    hide Next, Enabled, Recorded, Covers;
    forall time: nat | Recorded(s, time)
      ensures e.Announce? && !Covers(s.live, e.wall) ==> time < e.wall
    {
      if e.Announce? && !Covers(s.live, e.wall) {
        RecordedIsOlder(s, time, e.wall);
      }
    }
  }

  // What the events say of a ticket and of an emission.
  predicate IsPlanned(events: seq<Event>, time: Seconds, planned: nat) {
    planned < |events| && events[planned] == Announce(time, Saved)
  }

  predicate IsReleased(events: seq<Event>, m: Emission) {
    m.planned < m.released < |events| && IsPlanned(events, m.time, m.planned) && events[m.released] == Emit(m.clock)
  }

  predicate TraceInv(s: State, events: seq<Event>) {
    && s.steps == |events|
    && (forall i :: 0 <= i < |s.outbox| ==> IsPlanned(events, s.outbox[i].time, s.outbox[i].planned))
    && (forall i :: 0 <= i < |s.emitted| ==> IsReleased(events, s.emitted[i]))
  }

  lemma NextKeepsTrace(s: State, e: Event, events: seq<Event>)
    requires TraceInv(s, events) && Enabled(s, e)
    ensures TraceInv(Next(s, e), events + [e])
  {
    var longer := events + [e];
    assert forall i :: 0 <= i < |events| ==> longer[i] == events[i];
    assert longer[|events|] == e;
  }

  lemma {:induction false} RunKeeps(identity: Hash, destination: Hash, disk: Disk, events: seq<Event>, s: State)
    requires Reaches(identity, destination, disk, events, s)
    ensures ValidInv(s) && RecordInv(s, disk) && InOrder(s.emitted, s.outbox) && TraceInv(s, events)
    decreases |events|
  {
    if events != [] {
      var prefix, e := events[..|events| - 1], events[|events| - 1];
      var before := Run(Init(identity, destination, disk), prefix).value;
      RunKeeps(identity, destination, disk, prefix, before);
      NextKeepsValid(before, e);
      NextKeepsRecord(before, e, disk);
      NextKeepsOrder(before, e, disk);
      NextKeepsTrace(before, e, prefix);
      assert prefix + [e] == events;
    }
  }

  /** In every history, from any accepted state on disk or from none, with any clock
      rollback, failed saves, crashes and reloads: each emitted time is within 40
      bits, later than what was on record before, and on record both live and on
      disk; it is the clock reading its announce was planned and saved at. So it
      exceeds the clock at emission exactly if that clock is below that reading. */
  lemma EmittedTimeFollowsClock(
    identity: Hash, destination: Hash, disk: Disk, events: seq<Event>, s: State, i: nat)
    requires Reaches(identity, destination, disk, events, s) && i < |s.emitted|
    ensures var m := s.emitted[i];
            && m.time <= ANNOUNCE_TIME_MAX && Newer(disk, m.time) && Recorded(s, m.time)
            && m.planned < m.released < |events| && events[m.planned].Announce? && events[m.released].Emit?
            && (m.time > m.clock <==> events[m.released].wall < events[m.planned].wall)
  {
    RunKeeps(identity, destination, disk, events, s);
    assert Recorded(s, s.emitted[i].time) && IsReleased(events, s.emitted[i]);
  }

  /** Emitted times strictly increase, as times and as wire bytes. */
  lemma EmittedTimesIncrease(
    identity: Hash, destination: Hash, disk: Disk, events: seq<Event>, s: State, i: nat, j: nat)
    requires Reaches(identity, destination, disk, events, s) && i < j < |s.emitted|
    ensures s.emitted[i].time < s.emitted[j].time
    ensures LexLess(WireBytes(s.emitted[i].time), WireBytes(s.emitted[j].time))
  {
    RunKeeps(identity, destination, disk, events, s);
    assert Recorded(s, s.emitted[i].time) && Recorded(s, s.emitted[j].time);
    WireOrder(s.emitted[i].time, s.emitted[j].time);
  }

  lemma Extend(start: State, events: seq<Event>, s: State, e: Event) returns (longer: seq<Event>, after: State)
    requires Run(start, events) == Some(s) && Enabled(s, e)
    ensures longer == events + [e] && after == Next(s, e) && Run(start, longer) == Some(after)
  {
    longer, after := events + [e], Next(s, e);
    assert longer[..|longer| - 1] == events;
  }

  /** A live process can crash anywhere. It comes back with the state on disk, or a new
      one where there is none, and with nothing to release. */
  lemma CrashAndRestart(identity: Hash, destination: Hash, disk: Disk, events: seq<Event>, s: State)
    returns (longer: seq<Event>, after: State)
    requires Reaches(identity, destination, disk, events, s) && s.up
    ensures Reaches(identity, destination, disk, longer, after) && after.up && after.outbox == []
    ensures after.disk == s.disk && after.emitted == s.emitted
    ensures after.live == if s.disk.Holding? then s.disk.control else New(s.live.identity, s.live.destination)
  {
    RunKeeps(identity, destination, disk, events, s);
    var start := Init(identity, destination, disk);
    hide Run;
    longer, after := Extend(start, events, s, Crash);
    longer, after := Extend(start, longer, after, if s.disk.Holding? then Reload else Boot);
  }

  /** Neither an anchor nor a saved rotation touches the announce times. */
  lemma RotationIsRecorded(
    identity: Hash, destination: Hash, disk: Disk, events: seq<Event>, s: State, wall: Seconds)
    returns (longer: seq<Event>, after: State)
    requires Reaches(identity, destination, disk, events, s) && s.up
    ensures longer == events + [Anchor(wall), Rotation(wall, Saved)]
    ensures Reaches(identity, destination, disk, longer, after) && after.outbox == s.outbox && after.emitted == s.emitted
    ensures after.live == s.live.(lastRotation := Some(wall)) && after.disk == Holding(after.live)
  {
    var start := Init(identity, destination, disk);
    hide Run;
    longer, after := Extend(start, events, s, Anchor(wall));
    longer, after := Extend(start, longer, after, Rotation(wall, Saved));
  }

  // Saved announces can all be released.
  lemma {:induction false} Flush(start: State, events: seq<Event>, s: State, clock: Seconds)
    returns (longer: seq<Event>, after: State)
    requires Run(start, events) == Some(s) && s.up && s.outbox != []
    ensures Run(start, longer) == Some(after) && after.up && after.live == s.live && after.outbox == []
    ensures after.emitted != [] && after.emitted[|after.emitted| - 1].time == s.outbox[|s.outbox| - 1].time
    decreases |s.outbox|
  {
    longer, after := Extend(start, events, s, Emit(clock));
    if after.outbox != [] {
      longer, after := Flush(start, longer, after, clock);
    }
  }

  /** The clock does not get stuck: from every reachable state of a live process, any
      reading within 40 bits and later than the last can be planned, saved and, with
      all announces saved before it, emitted. */
  lemma LaterReadingCanBeEmitted(
    identity: Hash, destination: Hash, disk: Disk, events: seq<Event>, s: State, reading: Seconds, clock: Seconds)
    returns (longer: seq<Event>, after: State)
    requires Reaches(identity, destination, disk, events, s) && s.up
    requires reading <= ANNOUNCE_TIME_MAX && !Covers(s.live, reading)
    ensures Reaches(identity, destination, disk, longer, after) && after.up
    ensures after.emitted != [] && after.emitted[|after.emitted| - 1].time == reading
    ensures after.live == s.live.(lastAnnounce := Some(reading))
  {
    var start := Init(identity, destination, disk);
    PlannedIff(s.live, reading);
    hide Run;
    longer, after := Extend(start, events, s, Announce(reading, Saved));
    assert after.outbox[|after.outbox| - 1] == Ticket(reading, s.steps);
    longer, after := Flush(start, longer, after, clock);
  }

  // Any time within 40 bits can be planned and saved first.
  lemma BootEffect(identity: Hash, destination: Hash)
    ensures var start := Init(identity, destination, Absent);
            Run(start, []) == Some(start) && Enabled(start, Boot)
            && Next(start, Boot) == State(true, New(identity, destination), Absent, 1, [], [])
  {
  }

  lemma AnnounceEffect(s: State, reading: Seconds)
    requires s.up && s.live.lastAnnounce.None? && reading <= ANNOUNCE_TIME_MAX
    ensures Next(s, Announce(reading, Saved)).up && Next(s, Announce(reading, Saved)).emitted == s.emitted
    ensures Next(s, Announce(reading, Saved)).outbox == s.outbox + [Ticket(reading, s.steps)]
  {
  }

  lemma PlanFirst(identity: Hash, destination: Hash, reading: Seconds) returns (events: seq<Event>, s: State)
    requires reading <= ANNOUNCE_TIME_MAX
    ensures Run(Init(identity, destination, Absent), events) == Some(s)
    ensures s.up && s.outbox == [Ticket(reading, 1)] && s.emitted == []
  {
    hide Run, Next;
    var start := Init(identity, destination, Absent);
    BootEffect(identity, destination);
    events, s := Extend(start, [], start, Boot);
    AnnounceEffect(s, reading);
    events, s := Extend(start, events, s, Announce(reading, Saved));
  }

  /** A clock that runs back between planning and emission does put a future time
      on the wire, for every such pair of readings. */
  lemma EmittedTimeCanExceedClock(identity: Hash, destination: Hash, reading: Seconds, clock: Seconds)
    returns (events: seq<Event>, s: State)
    requires clock < reading <= ANNOUNCE_TIME_MAX
    ensures Reaches(identity, destination, Absent, events, s)
    ensures |s.emitted| == 1 && s.emitted[0].time == reading && s.emitted[0].clock == clock
  {
    events, s := PlanFirst(identity, destination, reading);
    hide Run;
    events, s := Extend(Init(identity, destination, Absent), events, s, Emit(clock));
  }
}
