/**
 Building announces for a destination, and the cache that answers a repeated path
 request with the announce already sent for its tag.
 */
module Destination {
  import opened Announce
  import opened Basics
  import opened WireTime

  const PR_TAG_WINDOW: real := 30.0

  datatype DestType = Single | Group | Plain | Link
  datatype Direction = In | Out

  // The wire-ordering value and the local clock for cache expiry.
  datatype AnnounceTime = AnnounceTime(wire: nat, cache: Time)

  datatype Error = InvalidAnnounceTime | NotSingle | NotInbound | EncryptionUnavailable

  // Announce bytes with the ratchet flag of the packet that carries them.
  datatype Body = Body(data: seq<byte>, hasRatchet: bool)

  datatype Cached = Cached(timestamp: real, body: Body)

  type Cache = map<seq<byte>, Cached>

  function Retained(cache: Cache, now: real): Cache {
    map tag | tag in cache && now <= cache[tag].timestamp + PR_TAG_WINDOW :: cache[tag]
  }

  // One announce by the holder of `key`, with five random bytes.
  function Unsigned(key: seq<byte>, nameHash: seq<byte>, random: seq<byte>, wire: nat,
                    ratchet: Option<seq<byte>>, appData: Option<seq<byte>>): AnnounceData {
    AnnounceData(key, nameHash, random + WireBytes(wire), ratchet, [], appData)
  }

  function Built(c: Suite, hash: seq<byte>, a: AnnounceData): Result<Body, Error> {
    match c.sign(a.publicKey, SignedData(hash, a))
    case None => Err(EncryptionUnavailable)
    case Some(signature) => Ok(Body(Packed(a.(signature := signature)), a.ratchet.Some?))
  }

  /** Every announce a destination builds with its own identity unpacks under the
      flag returned with it, passes signature and binding for that destination,
      with or without the key already known, and carries the wire time; empty app
      data included. */
  lemma BuiltAnnounceValidates(c: Suite, hash: seq<byte>, key: seq<byte>, nameHash: seq<byte>, random: seq<byte>,
                               wire: nat, ratchet: Option<seq<byte>>, appData: Option<seq<byte>>)
    requires Lawful(c) && |key| == 64 && |nameHash| == 10 && |random| == 5 && (ratchet.Some? ==> |ratchet.value| == 32)
    requires hash == DestinationHash(c, nameHash, key)
    requires Built(c, hash, Unsigned(key, nameHash, random, wire, ratchet, appData)).Ok?
    ensures var body := Built(c, hash, Unsigned(key, nameHash, random, wire, ratchet, appData)).value;
            var parsed := Unpacked(body.data, body.hasRatchet);
            && parsed.Parsed? && parsed.announce.ratchet == ratchet && OrEmpty(parsed.announce.appData) == OrEmpty(appData)
            && parsed.announce.randomHash[5..] == WireBytes(wire)
            && Validate(c, parsed.announce, hash, None) == Valid(c.identityHash(key))
            && Validate(c, parsed.announce, hash, Some(key)) == Valid(c.identityHash(key))
  {
    var a := Unsigned(key, nameHash, random, wire, ratchet, appData);
    var signed := a.(signature := c.sign(key, SignedData(hash, a)).value);
    UnpackInvertsPack(signed);
    assert SignedData(hash, Canonical(signed)) == SignedData(hash, a);
  }

  /** Whatever is valid under the signature of a built announce is that announce: if
      the signature verifies for nothing else, an announce that carries it and is
      read under the returned flag is for the same destination and has the same key,
      name, random part with its wire time, ratchet and app data. */
  lemma BuiltAnnounceIsBound(
    c: Suite, hash: seq<byte>, key: seq<byte>, nameHash: seq<byte>, random: seq<byte>, wire: nat,
    ratchet: Option<seq<byte>>, appData: Option<seq<byte>>, b: AnnounceData, d: seq<byte>, known: Option<seq<byte>>)
    requires |key| == 64 && |nameHash| == 10 && |random| == 5 && (ratchet.Some? ==> |ratchet.value| == 32)
    requires |hash| == |d| == 16 && Sized(b) && Validate(c, b, d, known).Valid?
    requires var a := Unsigned(key, nameHash, random, wire, ratchet, appData);
             c.sign(key, SignedData(hash, a)) == Some(b.signature) && OnlySigns(c, b.signature, SignedData(hash, a))
    requires b.ratchet.Some? == Built(c, hash, Unsigned(key, nameHash, random, wire, ratchet, appData)).value.hasRatchet
    ensures d == hash && b.publicKey == key && b.nameHash == nameHash && b.randomHash == random + WireBytes(wire)
    ensures b.ratchet == ratchet && OrEmpty(b.appData) == OrEmpty(appData)
  {
    var a := Unsigned(key, nameHash, random, wire, ratchet, appData).(signature := b.signature);
    assert SignedData(hash, a) == SignedData(hash, Unsigned(key, nameHash, random, wire, ratchet, appData));
    SignatureBindsFields(c, hash, a, b, d, known);
  }

  class Destination {
    const destType: DestType
    const direction: Direction
    const hash: seq<byte>
    const nameHash: seq<byte>
    var pathResponses: Cache

    constructor (destType: DestType, direction: Direction, hash: seq<byte>, nameHash: seq<byte>)
      ensures this.destType == destType && this.direction == direction
      ensures this.hash == hash && this.nameHash == nameHash && pathResponses == map[]
    {
      this.destType, this.direction, this.hash, this.nameHash := destType, direction, hash, nameHash;
      pathResponses := map[];
    }

    /** The first failing condition decides the error. Otherwise expired entries
        go, and a tag still cached gets its body back whatever else was asked;
        any other request is built, and remembered under its tag. */
    method CreateAnnounceAt(c: Suite, key: seq<byte>, appData: Option<seq<byte>>, defaultAppData: Option<seq<byte>>,
                            ratchet: Option<seq<byte>>, tag: Option<seq<byte>>, time: AnnounceTime, random: seq<byte>)
      returns (r: Result<Body, Error>)
      modifies this
      ensures var refusal := Refusal(destType, direction, time);
              if refusal.Some? then r == Err(refusal.value) && pathResponses == old(pathResponses)
              else
                var built := Built(c, hash, Unsigned(key, nameHash, random, time.wire, ratchet,
                                                     if appData.Some? then appData else defaultAppData));
                var op := Create(tag, time.cache.seconds, built);
                r == Answer(old(pathResponses), op) && pathResponses == Step(old(pathResponses), op)
    {
      if time.wire > ANNOUNCE_TIME_MAX || !time.cache.Finite? || time.cache.seconds < 0.0 {
        return Err(InvalidAnnounceTime);
      }
      if destType != Single {
        return Err(NotSingle);
      }
      if direction != In {
        return Err(NotInbound);
      }
      pathResponses := Retained(pathResponses, time.cache.seconds);
      if tag.Some? && tag.value in pathResponses {
        return Ok(pathResponses[tag.value].body);
      }
      var effective := if appData.Some? then appData else defaultAppData;
      r := Built(c, hash, Unsigned(key, nameHash, random, time.wire, ratchet, effective));
      if r.Ok? && tag.Some? {
        pathResponses := pathResponses[tag.value := Cached(time.cache.seconds, r.value)];
      }
    }

    /** The other way to the cache: never builds anything. */
    method CachedPathResponse(tag: seq<byte>, now: Time) returns (r: Result<Option<Body>, Error>)
      modifies this
      ensures !Usable(now) ==> r == Err(InvalidAnnounceTime) && pathResponses == old(pathResponses)
      ensures Usable(now) ==> r == Ok(Found(old(pathResponses), tag, now.seconds))
                              && pathResponses == Step(old(pathResponses), Lookup(now.seconds))
    {
      if !now.Finite? || now.seconds < 0.0 {
        return Err(InvalidAnnounceTime);
      }
      pathResponses := Retained(pathResponses, now.seconds);
      return Ok(if tag in pathResponses then Some(pathResponses[tag].body) else None);
    }
  }

  function Refusal(destType: DestType, direction: Direction, time: AnnounceTime): Option<Error> {
    if time.wire > ANNOUNCE_TIME_MAX || !Usable(time.cache) then Some(InvalidAnnounceTime)
    else if destType != Single then Some(NotSingle)
    else if direction != In then Some(NotInbound)
    else None
  }

  /** The first of three conditions that fails is the refusal: a usable pair of times,
      a single destination, an inbound one. */
  lemma RefusalIff(destType: DestType, direction: Direction, time: AnnounceTime)
    ensures var refusal := Refusal(destType, direction, time);
            var timely := time.wire <= ANNOUNCE_TIME_MAX && time.cache.Finite? && time.cache.seconds >= 0.0;
            && (refusal == Some(InvalidAnnounceTime) <==> !timely)
            && (refusal == Some(NotSingle) <==> timely && !destType.Single?)
            && (refusal == Some(NotInbound) <==> timely && destType.Single? && direction.Out?)
            && (refusal == None <==> timely && destType.Single? && direction.In?)
  {
  }

  // ---------------------------------------------------------------------
  // Histories of the cache
  // ---------------------------------------------------------------------

  // A request, with what building would give, or a bare lookup; both at a time.
  datatype Op = Create(tag: Option<seq<byte>>, time: real, built: Result<Body, Error>) | Lookup(time: real)

  function Found(cache: Cache, tag: seq<byte>, now: real): Option<Body> {
    if tag in Retained(cache, now) then Some(cache[tag].body) else None
  }

  function Answer(cache: Cache, op: Op): Result<Body, Error>
    requires op.Create?
  {
    if op.tag.Some? && op.tag.value in Retained(cache, op.time) then Ok(cache[op.tag.value].body) else op.built
  }

  function Step(cache: Cache, op: Op): Cache {
    var kept := Retained(cache, op.time);
    if op.Create? && op.tag.Some? && op.tag.value !in kept && op.built.Ok?
    then kept[op.tag.value := Cached(op.time, op.built.value)]
    else kept
  }

  function After(cache: Cache, ops: seq<Op>): Cache {
    if ops == [] then cache else Step(After(cache, ops[..|ops| - 1]), ops[|ops| - 1])
  }

  // The entry of a tag is there, unchanged, after each of the operations.
  predicate Unbroken(cache: Cache, tag: seq<byte>, ops: seq<Op>)
    requires tag in cache
  {
    && tag in After(cache, ops) && After(cache, ops)[tag] == cache[tag]
    && (ops == [] || Unbroken(cache, tag, ops[..|ops| - 1]))
  }

  /** An entry made at time t stays, unchanged, through any operations exactly if
      none of them came later than t plus the window, in whatever order their
      times are. */
  lemma {:induction false} EntryLastsIff(cache: Cache, tag: seq<byte>, ops: seq<Op>)
    requires tag in cache
    ensures Unbroken(cache, tag, ops) <==>
            forall i :: 0 <= i < |ops| ==> ops[i].time <= cache[tag].timestamp + PR_TAG_WINDOW
  {
    if ops != [] {
      var n := |ops| - 1;
      EntryLastsIff(cache, tag, ops[..n]);
      assert forall i :: 0 <= i < n ==> ops[i] == ops[..n][i];
      if Unbroken(cache, tag, ops[..n]) {
        LastOperationDecides(After(cache, ops[..n]), tag, ops[n]);
      }
    }
  }

  lemma LastOperationDecides(cache: Cache, tag: seq<byte>, op: Op)
    requires tag in cache
    ensures tag in Step(cache, op) && Step(cache, op)[tag] == cache[tag] <==>
            op.time <= cache[tag].timestamp + PR_TAG_WINDOW
  {
  }

  /** Replay: after a tag's announce was built at some time, and whatever requests
      and lookups follow within 30 seconds of it, both ways to the cache give those
      bytes and that flag exactly up to 30 seconds later. After that the lookup
      finds nothing and a request is built anew. */
  lemma TagReplays(cache: Cache, tag: seq<byte>, time: real, body: Body, ops: seq<Op>, now: real, other: Result<Body, Error>)
    requires tag !in Retained(cache, time)
    requires forall i :: 0 <= i < |ops| ==> ops[i].time <= time + PR_TAG_WINDOW
    ensures var later := After(Step(cache, Create(Some(tag), time, Ok(body))), ops);
            && Found(later, tag, now) == (if now <= time + PR_TAG_WINDOW then Some(body) else None)
            && Answer(later, Create(Some(tag), now, other)) == (if now <= time + PR_TAG_WINDOW then Ok(body) else other)
  {
    EntryLastsIff(Step(cache, Create(Some(tag), time, Ok(body))), tag, ops);
  }
}
