/**
 A ratchet ring bound to one file: a rotation is prepared on a duplicate, saved,
 and only then committed to the live ring.

 Signing and the stored envelope's encoding are parameters with their round-trip
 laws; generated keys and temporary names are arguments.
 */
module PersistentRing {
  import opened Basics
  import opened Persistence
  import opened RatchetRing

  const RATCHET_FILE_MAX_BYTES: nat := 64 * 1024

  // A stored ring. Historical files carry a rotation time and a signature of the
  // newest public key alone.
  datatype Envelope = Envelope(signature: Signature, keys: seq<Key>, legacy: bool)

  type Signer = nat

  datatype Codec = Codec(
    publicOf: Key -> Key,
    sign: (Signer, seq<Key>) -> Option<Signature>,
    verifies: (Signer, seq<Key>, Signature) -> bool,
    verifiesPublic: (Signer, Key, Signature) -> bool,
    encode: (Signature, seq<Key>) -> seq<byte>,
    decode: seq<byte> -> Option<Envelope>)

  // A signature verifies, and a ring of at most RATCHET_COUNT keys encodes within
  // the file limit and decodes to itself.
  ghost predicate Lawful(c: Codec) {
    && (forall who, keys :: c.sign(who, keys).Some? ==> c.verifies(who, keys, c.sign(who, keys).value))
    && (forall signature: Signature, keys {:trigger c.encode(signature, keys)} :: |keys| <= RATCHET_COUNT ==>
          && |c.encode(signature, keys)| <= RATCHET_FILE_MAX_BYTES
          && c.decode(c.encode(signature, keys)) == Some(Envelope(signature, keys, false)))
  }

  // One such codec: the signature, then the keys one after another.
  function Joined(keys: seq<Key>): seq<byte> {
    if keys == [] then [] else keys[0] + Joined(keys[1..])
  }

  function Separated(data: seq<byte>): seq<Key> {
    if |data| < 32 then [] else [data[..32]] + Separated(data[32..])
  }

  lemma {:induction false} SeparatedInvertsJoined(keys: seq<Key>)
    ensures |Joined(keys)| == 32 * |keys| && Separated(Joined(keys)) == keys
  {
    if keys != [] {
      SeparatedInvertsJoined(keys[1..]);
      assert Joined(keys)[..32] == keys[0] && Joined(keys)[32..] == Joined(keys[1..]);
    }
  }

  // Signers are told apart by one byte.
  function MarkOf(who: Signer): Signature {
    seq(64, i => (who % 256) as byte)
  }

  const PLAIN_CODEC: Codec := Codec(
    key => key,
    (who: Signer, keys) => Some(MarkOf(who)),
    (who: Signer, keys, signature) => signature == MarkOf(who),
    (who, key, signature) => false,
    (signature, keys) => signature + Joined(keys),
    data => if |data| < 64 then None else Some(Envelope(data[..64], Separated(data[64..]), false)))

  // Only the identity itself makes what verifies for it.
  ghost predicate Unforgeable(c: Codec) {
    && (forall who, keys, signature: Signature :: c.verifies(who, keys, signature) ==> c.sign(who, keys) == Some(signature))
    && (forall who, key, signature: Signature :: !c.verifiesPublic(who, key, signature))
  }

  /** The laws can be met, with signatures that cannot be forged. */
  lemma PlainCodecIsLawful()
    ensures Lawful(PLAIN_CODEC) && Unforgeable(PLAIN_CODEC)
  {
    forall signature: Signature, keys | |keys| <= RATCHET_COUNT
      ensures |PLAIN_CODEC.encode(signature, keys)| <= RATCHET_FILE_MAX_BYTES
      ensures PLAIN_CODEC.decode(PLAIN_CODEC.encode(signature, keys)) == Some(Envelope(signature, keys, false))
    {
      SeparatedInvertsJoined(keys);
      var data := signature + Joined(keys);
      assert data[..64] == signature && data[64..] == Joined(keys);
    }
  }

  // The keys a file holds for an identity, when it would be accepted.
  function Accepted(c: Codec, who: Signer, data: seq<byte>): (keys: Option<seq<Key>>)
    ensures keys.Some? ==> |keys.value| <= RATCHET_COUNT
  {
    match c.decode(data)
    case None => None
    case Some(Envelope(signature, keys, legacy)) =>
      if |data| > RATCHET_FILE_MAX_BYTES || |keys| > RATCHET_COUNT then None
      else if c.verifies(who, keys, signature) then Some(keys)
      else if legacy && keys != [] && c.verifiesPublic(who, c.publicOf(keys[0]), signature) then Some(keys)
      else None
  }

  /** A file is accepted exactly if it decodes within its limits to keys whose
      signature verifies for this identity: over all of them, or, in a historical
      file, over the newest public key. */
  lemma AcceptedIff(c: Codec, who: Signer, data: seq<byte>, keys: seq<Key>)
    ensures Accepted(c, who, data) == Some(keys) <==>
            && |data| <= RATCHET_FILE_MAX_BYTES && |keys| <= RATCHET_COUNT
            && c.decode(data).Some? && c.decode(data).value.keys == keys
            && (|| c.verifies(who, keys, c.decode(data).value.signature)
                || (&& c.decode(data).value.legacy && keys != []
                    && c.verifiesPublic(who, c.publicOf(keys[0]), c.decode(data).value.signature)))
  {
  }

  /** What loads was signed by this identity: with signatures that cannot be forged,
      a ring saved by another signer is refused unless this identity signs the same. */
  lemma ForeignRingIsRefused(c: Codec, who: Signer, other: Signer, keys: seq<Key>)
    requires Lawful(c) && Unforgeable(c) && |keys| <= RATCHET_COUNT && c.sign(other, keys).Some?
    ensures Accepted(c, who, c.encode(c.sign(other, keys).value, keys)) ==
            if c.sign(who, keys) == c.sign(other, keys) then Some(keys) else None
  {
    var signature := c.sign(other, keys).value;
    assert c.decode(c.encode(signature, keys)) == Some(Envelope(signature, keys, false));
  }

  // What a file system holds at a ring's path.
  datatype Disk = Absent | Refused | Holding(keys: seq<Key>)

  function OnDisk(c: Codec, who: Signer, files: map<Path, seq<byte>>, path: Path): Disk {
    match Holds(files, path)
    case None => Absent
    case Some(data) =>
      match Accepted(c, who, data)
      case None => Refused
      case Some(keys) => Holding(keys)
  }

  lemma SavedIsAccepted(c: Codec, who: Signer, keys: seq<Key>)
    requires Lawful(c) && |keys| <= RATCHET_COUNT && c.sign(who, keys).Some?
    ensures Accepted(c, who, c.encode(c.sign(who, keys).value, keys)) == Some(keys)
  {
  }

  datatype Failure = InvalidTime | NotLoaded | NotSaved

  /** Signs and writes a ring's keys. After an error the file is as before or
      holds the new ring; a success says the latter. */
  method SaveVerified(c: Codec, who: Signer, fs: FileSystem, path: Path, tmp: Path, keys: seq<Key>) returns (ok: bool)
    requires Lawful(c) && |keys| <= RATCHET_COUNT && tmp != path
    modifies fs
    ensures fs.faults >= old(fs.faults)
    ensures !ok ==> c.sign(who, keys).None? || fs.faults > old(fs.faults) || tmp in old(fs.files)
    ensures OnDisk(c, who, fs.files, path) == Holding(keys)
         || (!ok && OnDisk(c, who, fs.files, path) == old(OnDisk(c, who, fs.files, path)))
  {
    var signature := c.sign(who, keys);
    if signature.None? {
      return false;
    }
    SavedIsAccepted(c, who, keys);
    ok := fs.AtomicWrite(path, tmp, c.encode(signature.value, keys));
  }

  class PersistentRatchetRing {
    const codec: Codec
    const fs: FileSystem
    const path: Path
    var ring: RatchetRing

    ghost predicate Valid() reads this, ring, ring.buffer {
      && Lawful(codec) && ring.Valid()
      && ring.retainedCount == RATCHET_COUNT && ring.rotationInterval == RATCHET_INTERVAL
    }

    ghost function Live(): seq<Key>
      requires Valid()
      reads this, ring, ring.buffer
    {
      ring.Keys()
    }

    ghost function Stored(who: Signer): Disk reads this, fs {
      OnDisk(codec, who, fs.files, path)
    }

    constructor (codec: Codec, fs: FileSystem, path: Path, ring: RatchetRing)
      ensures this.codec == codec && this.fs == fs && this.path == path && this.ring == ring
    {
      this.codec, this.fs, this.path, this.ring := codec, fs, path, ring;
    }

    /** Loads an accepted file, whose rotation age is then unknown, or creates an
        empty one where there is none; refuses any other file. */
    static method Open(codec: Codec, fs: FileSystem, path: Path, tmp: Path, who: Signer)
      returns (r: Result<PersistentRatchetRing, Failure>)
      requires Lawful(codec) && tmp != path
      modifies fs
      ensures old(OnDisk(codec, who, fs.files, path)) == Refused ==> r == Err(NotLoaded)
      ensures old(OnDisk(codec, who, fs.files, path)) != Absent ==> fs.files == old(fs.files)
      ensures r.Err? ==>
                || old(OnDisk(codec, who, fs.files, path)) == Refused || fs.faults > old(fs.faults)
                || (old(OnDisk(codec, who, fs.files, path)) == Absent
                    && (codec.sign(who, []).None? || tmp in old(fs.files)))
      ensures old(OnDisk(codec, who, fs.files, path)) == Absent ==>
                OnDisk(codec, who, fs.files, path) in {Absent, Holding([])}
      ensures r.Ok? ==> fresh(r.value) && fresh(r.value.ring) && fresh(r.value.ring.buffer)
      ensures r.Ok? ==> r.value.codec == codec && r.value.fs == fs && r.value.path == path && r.value.Valid()
      ensures r.Ok? ==> r.value.ring.lastRotation == 0.0 && r.value.Stored(who) == Holding(r.value.Live())
    {
      var ring: RatchetRing;
      if path in fs.files {
        var data := fs.ReadSecretFile(path, RATCHET_FILE_MAX_BYTES);
        if data.None? {
          return Err(NotLoaded);
        }
        var keys := Accepted(codec, who, data.value);
        if keys.None? {
          return Err(NotLoaded);
        }
        ring := new RatchetRing.Decoded(keys.value);
      } else {
        ring := new RatchetRing();
        var ok := SaveVerified(codec, who, fs, path, tmp, []);
        if !ok {
          return Err(NotSaved);
        }
      }
      var bound := new PersistentRatchetRing(codec, fs, path, ring);
      return Ok(bound);
    }

    /** A returned key is the newest of both the live and the stored ring. An
        error changes nothing in memory and leaves the stored ring as before or
        equal to the rejected candidate. */
    method RotateAt(who: Signer, now: Time, key: Key, tmp: Path) returns (r: Result<Key, Failure>)
      requires Valid() && tmp != path
      modifies this, fs
      ensures Valid()
      ensures r.Err? ==> ring == old(ring) && Live() == old(Live()) && ring.lastRotation == old(ring.lastRotation)
      ensures r.Err? ==> Stored(who) in {old(Stored(who)), Holding(Rotated(old(Live()), RATCHET_COUNT, key))}
      ensures r.Err? && Usable(now) ==>
                || codec.sign(who, Rotated(old(Live()), RATCHET_COUNT, key)).None?
                || fs.faults > old(fs.faults) || tmp in old(fs.files)
      ensures r.Ok? ==> Usable(now) && r.value == codec.publicOf(key) && ring.lastRotation == now.seconds
      ensures r.Ok? ==> Live() == Rotated(old(Live()), RATCHET_COUNT, key) && Stored(who) == Holding(Live())
      ensures !Usable(now) ==> r == Err(InvalidTime) && Stored(who) == old(Stored(who))
    {
      if !now.Finite? || now.seconds < 0.0 {
        return Err(InvalidTime);
      }
      var candidate := new RatchetRing.Duplicate(ring);
      candidate.RotateAt(key, now);
      var saved := SaveVerified(codec, who, fs, path, tmp, candidate.buffer[..candidate.len]);
      if !saved {
        return Err(NotSaved);
      }
      ring := candidate;
      return Ok(codec.publicOf(key));
    }

    /** Rotates when the ring is empty or due, and otherwise returns the newest
        live key without touching anything. */
    method EnsureCurrentAt(who: Signer, now: Time, key: Key, tmp: Path) returns (r: Result<Key, Failure>)
      requires Valid() && tmp != path
      modifies this, fs
      ensures Valid()
      ensures r.Err? ==> old(Live() == [] || Due(ring.lastRotation, ring.rotationInterval, now))
      ensures r.Err? && Usable(now) ==>
                || codec.sign(who, Rotated(old(Live()), RATCHET_COUNT, key)).None?
                || fs.faults > old(fs.faults) || tmp in old(fs.files)
      ensures r.Err? ==> ring == old(ring) && Live() == old(Live()) && ring.lastRotation == old(ring.lastRotation)
      ensures r.Err? ==> Stored(who) in {old(Stored(who)), Holding(Rotated(old(Live()), RATCHET_COUNT, key))}
      ensures r.Ok? ==> Live() != [] && r.value == codec.publicOf(Live()[0])
      ensures r.Ok? && old(Live() == [] || Due(ring.lastRotation, ring.rotationInterval, now)) ==>
                && Live() == Rotated(old(Live()), RATCHET_COUNT, key) && Stored(who) == Holding(Live())
                && Usable(now) && ring.lastRotation == now.seconds
      ensures r.Ok? && !old(Live() == [] || Due(ring.lastRotation, ring.rotationInterval, now)) ==>
                Live() == old(Live()) && Stored(who) == old(Stored(who)) && ring.lastRotation == old(ring.lastRotation)
    {
      var due := ring.NeedsRotation(now);
      if ring.len == 0 || due {
        r := RotateAt(who, now, key, tmp);
      } else {
        return Ok(codec.publicOf(ring.buffer[0]));
      }
    }
  }
}
