/**
 Encryption to an identity or to one of its ratchet keys, and decryption by
 trial over the retained ratchets.

 Key agreement, key derivation and hashing are parameters with only their
 algebraic laws; random ephemerals and IVs are arguments.
 */
module Identity {
  import opened Basics
  import opened RatchetRing
  import Token

  // `publicOf(private)`, `exchange(private, public)`, `derive(secret, identityHash)`
  // and the identifier of a ratchet public key.
  datatype Suite = Suite(
    publicOf: Key -> Key,
    exchange: (Key, Key) -> seq<byte>,
    derive: (seq<byte>, seq<byte>) -> seq<byte>,
    ratchetId: Key -> seq<byte>,
    cipher: Token.Cipher)

  ghost predicate Lawful(s: Suite) {
    && (forall a, b :: s.exchange(a, s.publicOf(b)) == s.exchange(b, s.publicOf(a)))
    && (forall secret, hash :: |s.derive(secret, hash)| == 64)
    && Token.Lawful(s.cipher)
  }

  datatype Error = DecryptionFailed

  datatype Opened = Opened(plaintext: seq<byte>, ratchetId: Option<seq<byte>>)

  // The symmetric key shared by a private key and a peer's public key.
  function SharedKey(s: Suite, hash: seq<byte>, private: Key, peer: Key): seq<byte> {
    s.derive(s.exchange(private, peer), hash)
  }

  function Encrypt(s: Suite, hash: seq<byte>, target: Key, ephemeral: Key, iv: seq<byte>, plaintext: seq<byte>): Result<seq<byte>, Error> {
    match Token.Encrypt(s.cipher, plaintext, SharedKey(s, hash, ephemeral, target), iv)
    case Err(_) => Err(DecryptionFailed)
    case Ok(token) => Ok(s.publicOf(ephemeral) + token)
  }

  // What one private key makes of a ciphertext.
  function OpenWith(s: Suite, hash: seq<byte>, private: Key, ciphertext: seq<byte>): Option<seq<byte>> {
    if |ciphertext| < 32 then None
    else
      match Token.Decrypt(s.cipher, ciphertext[32..], SharedKey(s, hash, private, ciphertext[..32]))
      case Err(_) => None
      case Ok(plaintext) => Some(plaintext)
  }

  function FirstOpened(s: Suite, hash: seq<byte>, ratchets: seq<Key>, ciphertext: seq<byte>): Option<Opened> {
    if ratchets == [] then None
    else
      match OpenWith(s, hash, ratchets[0], ciphertext)
      case Some(plaintext) => Some(Opened(plaintext, Some(s.ratchetId(s.publicOf(ratchets[0])))))
      case None => FirstOpened(s, hash, ratchets[1..], ciphertext)
  }

  // The newest ratchet that authenticates decides; the identity's own key is
  // tried last, and not at all when ratchets are enforced.
  function Decrypted(
    s: Suite, hash: seq<byte>, own: Option<Key>, ciphertext: seq<byte>, ratchets: seq<Key>, enforce: bool)
    : Result<Opened, Error>
  {
    if |ciphertext| < 32 then Err(DecryptionFailed)
    else
      match FirstOpened(s, hash, ratchets, ciphertext)
      case Some(result) => Ok(result)
      case None =>
        if enforce || own.None? then Err(DecryptionFailed)
        else
          match OpenWith(s, hash, own.value, ciphertext)
          case Some(plaintext) => Ok(Opened(plaintext, None))
          case None => Err(DecryptionFailed)
  }

  method Decrypt(
    s: Suite, hash: seq<byte>, own: Option<Key>, ciphertext: seq<byte>, ratchets: seq<Key>, enforce: bool)
    returns (r: Result<Opened, Error>)
    ensures r == Decrypted(s, hash, own, ciphertext, ratchets, enforce)
  {
    if |ciphertext| < 32 {
      return Err(DecryptionFailed);
    }
    for i := 0 to |ratchets|
      invariant FirstOpened(s, hash, ratchets, ciphertext) == FirstOpened(s, hash, ratchets[i..], ciphertext)
    {
      assert ratchets[i..][1..] == ratchets[i + 1..];
      var plaintext := OpenWith(s, hash, ratchets[i], ciphertext);
      if plaintext.Some? {
        return Ok(Opened(plaintext.value, Some(s.ratchetId(s.publicOf(ratchets[i])))));
      }
    }
    if enforce || own.None? {
      return Err(DecryptionFailed);
    }
    var plaintext := OpenWith(s, hash, own.value, ciphertext);
    return if plaintext.Some? then Ok(Opened(plaintext.value, None)) else Err(DecryptionFailed);
  }

  lemma TargetOpens(
    s: Suite, hash: seq<byte>, private: Key, ephemeral: Key, iv: seq<byte>, plaintext: seq<byte>, ciphertext: seq<byte>)
    requires Lawful(s) && |iv| == 16
    requires Encrypt(s, hash, s.publicOf(private), ephemeral, iv, plaintext) == Ok(ciphertext)
    ensures OpenWith(s, hash, private, ciphertext) == Some(plaintext)
  {
    var key := SharedKey(s, hash, ephemeral, s.publicOf(private));
    assert key == SharedKey(s, hash, private, s.publicOf(ephemeral));
    Token.RoundTrip(s.cipher, plaintext, key, iv);
    assert ciphertext[..32] == s.publicOf(ephemeral);
    assert ciphertext[32..] == Token.Encrypt(s.cipher, plaintext, key, iv).value;
  }

  lemma {:induction false} FirstOpenedIs(s: Suite, hash: seq<byte>, ratchets: seq<Key>, ciphertext: seq<byte>, target: Key, plaintext: seq<byte>)
    requires OpenWith(s, hash, target, ciphertext) == Some(plaintext)
    requires forall i :: 0 <= i < |ratchets| && ratchets[i] != target ==> OpenWith(s, hash, ratchets[i], ciphertext).None?
    ensures FirstOpened(s, hash, ratchets, ciphertext)
         == if target in ratchets then Some(Opened(plaintext, Some(s.ratchetId(s.publicOf(target))))) else None
  {
    if ratchets != [] && ratchets[0] != target {
      FirstOpenedIs(s, hash, ratchets[1..], ciphertext, target, plaintext);
    }
  }

  /** Encryption always succeeds, with a ciphertext of this length. */
  lemma EncryptSucceeds(s: Suite, hash: seq<byte>, target: Key, ephemeral: Key, iv: seq<byte>, plaintext: seq<byte>)
    requires Lawful(s) && |iv| == 16
    ensures Encrypt(s, hash, target, ephemeral, iv, plaintext).Ok?
    ensures |Encrypt(s, hash, target, ephemeral, iv, plaintext).value| == 80 + 16 * (|plaintext| / 16 + 1)
  {
    Token.RoundTrip(s.cipher, plaintext, SharedKey(s, hash, ephemeral, target), iv);
  }

  /** The identity's own key is the last resort: a ciphertext made for it that no
      ratchet opens decrypts to its plaintext, without a ratchet identifier, exactly
      if ratchets are not enforced and the identity has its private key. */
  lemma OwnKeyIsLastResort(
    s: Suite, hash: seq<byte>, own: Key, ephemeral: Key, iv: seq<byte>, plaintext: seq<byte>, ciphertext: seq<byte>,
    ratchets: seq<Key>, enforce: bool)
    requires Lawful(s) && |iv| == 16
    requires Encrypt(s, hash, s.publicOf(own), ephemeral, iv, plaintext) == Ok(ciphertext)
    requires forall i :: 0 <= i < |ratchets| ==> OpenWith(s, hash, ratchets[i], ciphertext).None?
    ensures Decrypted(s, hash, Some(own), ciphertext, ratchets, enforce)
         == if enforce then Err(DecryptionFailed) else Ok(Opened(plaintext, None))
    ensures Decrypted(s, hash, None, ciphertext, ratchets, enforce) == Err(DecryptionFailed)
  {
    EncryptSucceeds(s, hash, s.publicOf(own), ephemeral, iv, plaintext);
    TargetOpens(s, hash, own, ephemeral, iv, plaintext, ciphertext);
    NoneOpens(s, hash, ratchets, ciphertext);
  }

  lemma {:induction false} NoneOpens(s: Suite, hash: seq<byte>, ratchets: seq<Key>, ciphertext: seq<byte>)
    requires forall i :: 0 <= i < |ratchets| ==> OpenWith(s, hash, ratchets[i], ciphertext).None?
    ensures FirstOpened(s, hash, ratchets, ciphertext) == None
  {
    if ratchets != [] {
      NoneOpens(s, hash, ratchets[1..], ciphertext);
    }
  }

  /** The first ratchet that opens a ciphertext decides, with its identifier, whether
      or not ratchets are enforced and whatever the identity's own key makes of it. */
  lemma {:induction false} FirstRatchetDecides(
    s: Suite, hash: seq<byte>, own: Option<Key>, ciphertext: seq<byte>, ratchets: seq<Key>, first: nat, enforce: bool)
    requires first < |ratchets| && OpenWith(s, hash, ratchets[first], ciphertext).Some?
    requires forall i :: 0 <= i < first ==> OpenWith(s, hash, ratchets[i], ciphertext).None?
    ensures Decrypted(s, hash, own, ciphertext, ratchets, enforce)
         == Ok(Opened(OpenWith(s, hash, ratchets[first], ciphertext).value, Some(s.ratchetId(s.publicOf(ratchets[first])))))
    decreases first
  {
    if first > 0 {
      assert forall i :: 0 <= i < first - 1 ==> ratchets[1..][i] == ratchets[i + 1];
      FirstRatchetDecides(s, hash, own, ciphertext, ratchets[1..], first - 1, enforce);
    }
  }

  /** What no held key opens is not decrypted. */
  lemma NothingElseDecrypts(
    s: Suite, hash: seq<byte>, own: Option<Key>, ciphertext: seq<byte>, ratchets: seq<Key>, enforce: bool)
    requires forall i :: 0 <= i < |ratchets| ==> OpenWith(s, hash, ratchets[i], ciphertext).None?
    requires own.Some? ==> OpenWith(s, hash, own.value, ciphertext).None?
    ensures Decrypted(s, hash, own, ciphertext, ratchets, enforce) == Err(DecryptionFailed)
  {
    NoneOpens(s, hash, ratchets, ciphertext);
  }

  /** With ratchets enforced, a ciphertext made for a ratchet the ring holds at
      some place decrypts to its plaintext after any further rotations and changes
      of the retained count exactly while that ratchet survives them, provided no
      other key ever held authenticates the ciphertext. */
  lemma RatchetLifetime(
    s: Suite, hash: seq<byte>, own: Option<Key>, start: Ring, place: nat, steps: seq<Step>,
    ephemeral: Key, iv: seq<byte>, plaintext: seq<byte>, ciphertext: seq<byte>)
    requires Lawful(s) && |iv| == 16 && Sound(start)
    requires place < |start.keys| && OnlyAt(start.keys, start.keys[place], place) && start.keys[place] !in Generated(steps)
    requires Encrypt(s, hash, s.publicOf(start.keys[place]), ephemeral, iv, plaintext) == Ok(ciphertext)
    requires forall k :: k in Generated(steps) || (k in start.keys && k != start.keys[place]) ==>
                           OpenWith(s, hash, k, ciphertext).None?
    ensures Decrypted(s, hash, own, ciphertext, From(start, steps).keys, true)
         == if Survives(start, place, steps) then Ok(Opened(plaintext, Some(s.ratchetId(s.publicOf(start.keys[place])))))
            else Err(DecryptionFailed)
  {
    var target, ring := start.keys[place], From(start, steps).keys;
    TargetOpens(s, hash, target, ephemeral, iv, plaintext, ciphertext);
    KeyHeldIff(start, place, target, steps);
    HoldsOnlyKnown(start, steps);
    FirstOpenedIs(s, hash, ring, ciphertext, target, plaintext);
  }

  // ---------------------------------------------------------------------
  // The hypotheses can be met
  // ---------------------------------------------------------------------

  function Sum(a: Key, b: Key): Key {
    seq(32, i requires 0 <= i < 32 => ((a[i] as nat + b[i] as nat) % 256) as byte)
  }

  // A suite in which agreement is addition and a MAC is its key.
  const PLAIN_SUITE: Suite := Suite(
    key => key,
    (private: Key, public: Key) => Sum(private, public),
    (secret, hash) => if |secret| == 32 then secret + secret else seq(64, i => 0),
    (key: Key) => key[..10],
    Token.PLAIN_CIPHER)

  lemma PlainSuiteIsLawful()
    ensures Lawful(PLAIN_SUITE)
  {
    Token.PlainCipherIsLawful();
    forall a, b
      ensures PLAIN_SUITE.exchange(a, PLAIN_SUITE.publicOf(b)) == PLAIN_SUITE.exchange(b, PLAIN_SUITE.publicOf(a))
    {
      assert Sum(a, b) == Sum(b, a);
    }
  }

  lemma SumSeparates(a: Key, b: Key, c: Key)
    requires a != b
    ensures Sum(a, c) != Sum(b, c)
  {
    var i :| 0 <= i < 32 && a[i] != b[i];
    assert Sum(a, c)[i] != Sum(b, c)[i];
  }

  /** In that suite only the target opens a ciphertext, whatever keys there are, so
      `RatchetLifetime` speaks of every ring of distinct keys. */
  lemma PlainSuiteSeparatesKeys(
    hash: seq<byte>, target: Key, other: Key, ephemeral: Key, iv: seq<byte>, plaintext: seq<byte>)
    requires |iv| == 16 && other != target
    ensures Encrypt(PLAIN_SUITE, hash, target, ephemeral, iv, plaintext).Ok?
    ensures OpenWith(PLAIN_SUITE, hash, other,
                     Encrypt(PLAIN_SUITE, hash, target, ephemeral, iv, plaintext).value).None?
  {
    PlainSuiteIsLawful();
    SumSeparates(target, other, ephemeral);
    assert Sum(ephemeral, target) == Sum(target, ephemeral);
    var key := SharedKey(PLAIN_SUITE, hash, ephemeral, target);
    var wrong := SharedKey(PLAIN_SUITE, hash, other, ephemeral);
    assert key[..32] == Sum(target, ephemeral) && wrong[..32] == Sum(other, ephemeral);
    Token.RoundTrip(PLAIN_SUITE.cipher, plaintext, key, iv);
    var token := Token.Encrypt(PLAIN_SUITE.cipher, plaintext, key, iv).value;
    var ciphertext := ephemeral + token;
    assert ciphertext[..32] == ephemeral && ciphertext[32..] == token;
    Token.PlainCipherRejects(token, plaintext, key, wrong, iv);
  }
}
