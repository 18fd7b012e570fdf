/**
 Announce bodies: their wire layout, their signature and their binding to a
 destination hash. Hashing, signatures and key validity are parameters.
 */
module Announce {
  import opened Basics

  const PUBKEY_SIZE: nat := 64
  const NAME_HASH_SIZE: nat := 10
  const RANDOM_HASH_SIZE: nat := 10
  const SIGNATURE_SIZE: nat := 64
  const RATCHET_SIZE: nat := 32
  const MIN_ANNOUNCE_SIZE: nat := PUBKEY_SIZE + NAME_HASH_SIZE + RANDOM_HASH_SIZE + SIGNATURE_SIZE

  datatype AnnounceData = AnnounceData(
    publicKey: seq<byte>, nameHash: seq<byte>, randomHash: seq<byte>,
    ratchet: Option<seq<byte>>, signature: seq<byte>, appData: Option<seq<byte>>)

  // The fields the source holds in fixed-size arrays.
  predicate Sized(a: AnnounceData) {
    && |a.publicKey| == PUBKEY_SIZE && |a.nameHash| == NAME_HASH_SIZE && |a.randomHash| == RANDOM_HASH_SIZE
    && |a.signature| == SIGNATURE_SIZE && (a.ratchet.Some? ==> |a.ratchet.value| == RATCHET_SIZE)
  }

  function OrEmpty(field: Option<seq<byte>>): seq<byte> {
    if field.Some? then field.value else []
  }

  function Packed(a: AnnounceData): seq<byte> {
    a.publicKey + (a.nameHash + (a.randomHash + (OrEmpty(a.ratchet) + (a.signature + OrEmpty(a.appData)))))
  }

  method Pack(a: AnnounceData) returns (out: seq<byte>)
    ensures out == Packed(a)
  {
    out := a.publicKey;
    out := out + a.nameHash;
    out := out + a.randomHash;
    if a.ratchet.Some? {
      out := out + a.ratchet.value;
    }
    out := out + a.signature;
    if a.appData.Some? {
      out := out + a.appData.value;
    }
    assert out == Packed(a);
  }

  function MinSize(hasRatchet: bool): nat {
    if hasRatchet then MIN_ANNOUNCE_SIZE + RATCHET_SIZE else MIN_ANNOUNCE_SIZE
  }

  datatype Parsed = Parsed(announce: AnnounceData) | TooShort(length: nat)

  // Parses at a moving position.
  method Unpack(data: seq<byte>, hasRatchet: bool) returns (r: Parsed)
    ensures r == Unpacked(data, hasRatchet)
  {
    if |data| < MinSize(hasRatchet) {
      return TooShort(|data|);
    }
    var pos := 0;
    var publicKey := data[pos..pos + 64];
    pos := pos + 64;
    var nameHash := data[pos..pos + 10];
    pos := pos + 10;
    var randomHash := data[pos..pos + 10];
    pos := pos + 10;
    var ratchet := None;
    if hasRatchet {
      ratchet := Some(data[pos..pos + 32]);
      pos := pos + 32;
    }
    var signature := data[pos..pos + 64];
    pos := pos + 64;
    var appData := if pos < |data| then Some(data[pos..]) else None;
    return Parsed(AnnounceData(publicKey, nameHash, randomHash, ratchet, signature, appData));
  }

  function Unpacked(data: seq<byte>, hasRatchet: bool): Parsed {
    if |data| < MinSize(hasRatchet) then TooShort(|data|)
    else
      var at := if hasRatchet then 116 else 84;
      Parsed(AnnounceData(
        data[..64], data[64..74], data[74..84], if hasRatchet then Some(data[84..116]) else None,
        data[at..at + 64], if at + 64 < |data| then Some(data[at + 64..]) else None))
  }

  /** Packing inverts unpacking on every accepted input. */
  lemma PackInvertsUnpack(data: seq<byte>, hasRatchet: bool)
    requires |data| >= MinSize(hasRatchet)
    ensures var r := Unpacked(data, hasRatchet);
            r.Parsed? && Sized(r.announce) && r.announce.ratchet.Some? == hasRatchet && Packed(r.announce) == data
  {
  }

  // Empty app data is not represented on the wire.
  function Canonical(a: AnnounceData): AnnounceData {
    if a.appData == Some([]) then a.(appData := None) else a
  }

  /** Unpacking under the right flag inverts packing, up to empty app data: the
      announce comes back exactly when its app data is not the empty string. */
  lemma UnpackInvertsPack(a: AnnounceData)
    requires Sized(a)
    ensures Unpacked(Packed(a), a.ratchet.Some?) == Parsed(Canonical(a))
    ensures Unpacked(Packed(a), a.ratchet.Some?) == Parsed(a) <==> a.appData != Some([])
  {
    PackedSlices(a);
    hide Packed;
  }

  lemma PackedSlices(a: AnnounceData)
    requires Sized(a)
    ensures var data := Packed(a); var at := if a.ratchet.Some? then 116 else 84;
            && |data| == at + 64 + |OrEmpty(a.appData)|
            && data[..64] == a.publicKey && data[64..74] == a.nameHash && data[74..84] == a.randomHash
            && data[84..at] == OrEmpty(a.ratchet) && data[at..at + 64] == a.signature
            && data[at + 64..] == OrEmpty(a.appData)
  {
  }

  // ---------------------------------------------------------------------
  // Signature and binding
  // ---------------------------------------------------------------------

  // `sign(publicKey, message)` by the holder of that key, the hash of an
  // identity, the truncated hash behind destination hashes.
  datatype Suite = Suite(
    validKey: seq<byte> -> bool,
    sign: (seq<byte>, seq<byte>) -> Option<seq<byte>>,
    verifies: (seq<byte>, seq<byte>, seq<byte>) -> bool,
    identityHash: seq<byte> -> seq<byte>,
    truncatedHash: seq<byte> -> seq<byte>)

  // A key that signs is valid, and its signatures have 64 bytes and verify.
  ghost predicate Lawful(c: Suite) {
    forall key, message :: c.sign(key, message).Some? ==>
      && c.validKey(key) && |c.sign(key, message).value| == SIGNATURE_SIZE
      && c.verifies(key, message, c.sign(key, message).value)
  }

  /** The laws can be met. */
  lemma LawfulSuiteExists() returns (c: Suite)
    ensures Lawful(c)
  {
    c := Suite(key => true, (key, message) => Some(seq(64, i => 0)), (key, message, signature) => true,
               key => key, data => data);
  }

  datatype Validation = Valid(identityHash: seq<byte>) | InvalidPublicKey | SignatureInvalid | HashMismatch | HashCollision

  function SignedData(destination: seq<byte>, a: AnnounceData): seq<byte> {
    destination + a.publicKey + a.nameHash + a.randomHash + OrEmpty(a.ratchet) + OrEmpty(a.appData)
  }

  function DestinationHash(c: Suite, nameHash: seq<byte>, publicKey: seq<byte>): seq<byte> {
    c.truncatedHash(nameHash + c.identityHash(publicKey))
  }

  function VerifySignature(c: Suite, a: AnnounceData, destination: seq<byte>): Validation {
    if !c.validKey(a.publicKey) then InvalidPublicKey
    else if !c.verifies(a.publicKey, SignedData(destination, a), a.signature) then SignatureInvalid
    else Valid(c.identityHash(a.publicKey))
  }

  function ValidateBinding(c: Suite, a: AnnounceData, destination: seq<byte>, identityHash: seq<byte>, known: Option<seq<byte>>)
    : Validation
  {
    if c.truncatedHash(a.nameHash + identityHash) != destination then HashMismatch
    else if known.Some? && known.value != a.publicKey then HashCollision
    else Valid(identityHash)
  }

  function Validate(c: Suite, a: AnnounceData, destination: seq<byte>, known: Option<seq<byte>>): Validation {
    var signed := VerifySignature(c, a, destination);
    if signed.Valid? then ValidateBinding(c, a, destination, signed.identityHash, known) else signed
  }

  /** An announce is valid exactly if its key is, its signature verifies over its own
      fields and the destination, that destination is the hash of its name and key,
      and no other key is known; the first of these that fails is the error. */
  lemma ValidateIff(c: Suite, b: AnnounceData, d: seq<byte>, known: Option<seq<byte>>)
    ensures var v := Validate(c, b, d, known);
            var signed := c.verifies(b.publicKey, SignedData(d, b), b.signature);
            var bound := d == DestinationHash(c, b.nameHash, b.publicKey);
            var expected := known.None? || known == Some(b.publicKey);
            && (v.Valid? <==> c.validKey(b.publicKey) && signed && bound && expected)
            && (v.Valid? ==> v.identityHash == c.identityHash(b.publicKey))
            && (v.InvalidPublicKey? <==> !c.validKey(b.publicKey))
            && (v.SignatureInvalid? <==> c.validKey(b.publicKey) && !signed)
            && (v.HashMismatch? <==> c.validKey(b.publicKey) && signed && !bound)
            && (v.HashCollision? <==> c.validKey(b.publicKey) && signed && bound && !expected)
  {
  }

  // The signature verifies for no other message, under any key.
  ghost predicate OnlySigns(c: Suite, signature: seq<byte>, message: seq<byte>) {
    forall key, other :: c.verifies(key, other, signature) ==> other == message
  }

  lemma SignedSlices(d: seq<byte>, a: AnnounceData)
    requires Sized(a) && |d| == 16
    ensures var m := SignedData(d, a);
            && |m| >= 100 && m[..16] == d && m[16..80] == a.publicKey && m[80..90] == a.nameHash && m[90..100] == a.randomHash
            && m[100..] == OrEmpty(a.ratchet) + OrEmpty(a.appData)
  {
  }

  /** A valid announce that carries a signature made for another announce, one that
      verifies for nothing else, is for the same destination and agrees with it in
      every field, provided it is read under the same ratchet flag. In any case its
      ratchet and app data, put together, are the same. */
  lemma SignatureBindsFields(
    c: Suite, hash: seq<byte>, a: AnnounceData, b: AnnounceData, d: seq<byte>, known: Option<seq<byte>>)
    requires Sized(a) && Sized(b) && |hash| == |d| == 16
    requires OnlySigns(c, b.signature, SignedData(hash, a)) && Validate(c, b, d, known).Valid?
    ensures d == hash && b.publicKey == a.publicKey && b.nameHash == a.nameHash && b.randomHash == a.randomHash
    ensures OrEmpty(b.ratchet) + OrEmpty(b.appData) == OrEmpty(a.ratchet) + OrEmpty(a.appData)
    ensures b.ratchet.Some? == a.ratchet.Some? ==> b.ratchet == a.ratchet && OrEmpty(b.appData) == OrEmpty(a.appData)
  {
    ValidateIff(c, b, d, known);
    assert SignedData(d, b) == SignedData(hash, a);
    SignedSlices(d, b);
    SignedSlices(hash, a);
    hide SignedData;
    if b.ratchet.Some? == a.ratchet.Some? {
      var n := |OrEmpty(a.ratchet)|;
      var x, y := OrEmpty(b.ratchet) + OrEmpty(b.appData), OrEmpty(a.ratchet) + OrEmpty(a.appData);
      assert x[..n] == OrEmpty(b.ratchet) && y[..n] == OrEmpty(a.ratchet);
      assert x[n..] == OrEmpty(b.appData) && y[n..] == OrEmpty(a.appData);
    }
  }

  /** The condition is needed: the flag is not among the signed fields, so an
      announce with a ratchet is as valid read without one, the ratchet then counting
      as app data. */
  lemma FlagIsNotSigned(c: Suite, a: AnnounceData, d: seq<byte>, known: Option<seq<byte>>)
    requires a.ratchet.Some?
    ensures var b := a.(ratchet := None, appData := Some(a.ratchet.value + OrEmpty(a.appData)));
            Validate(c, b, d, known) == Validate(c, a, d, known)
  {
    var b := a.(ratchet := None, appData := Some(a.ratchet.value + OrEmpty(a.appData)));
    assert SignedData(d, b) == SignedData(d, a);
  }

  /** Such a signature exists, for any message, in a lawful suite. */
  lemma BindingSuiteExists(message: seq<byte>) returns (c: Suite, signature: seq<byte>)
    ensures Lawful(c) && OnlySigns(c, signature, message)
    ensures forall key :: c.sign(key, message) == Some(signature)
  {
    var made: seq<byte> := seq(64, i => 0);
    signature := made;
    c := Suite(key => true, (key, m) => if m == message then Some(made) else None,
               (key, m, other) => m == message && other == made, key => key, data => data);
  }
}
