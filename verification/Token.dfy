/** Block padding as described in section 6.3 of RFC 5652, for 16-byte blocks. */
module Pkcs7 {
  import opened Basics

  const BLOCK: nat := 16

  datatype PadError = EmptyInput | InvalidPaddingValue(value: byte) | InconsistentPadding

  function Repeat(b: byte, n: nat): seq<byte> {
    seq(n, i => b)
  }

  // Between 1 and 16 bytes, each holding their number, up to the next block.
  function Pad(data: seq<byte>): (padded: seq<byte>)
    ensures data < padded && |padded| == BLOCK * (|data| / BLOCK + 1)
  {
    var n := BLOCK - |data| % BLOCK;
    data + Repeat(n as byte, n)
  }

  /** Accepts exactly the inputs that end in `p` copies of `p` for some `p`
      between 1 and 16, and returns what precedes them. */
  method Unpad(data: seq<byte>) returns (r: Result<seq<byte>, PadError>)
    ensures r == Unpadded(data)
  {
    if data == [] {
      return Err(EmptyInput);
    }
    var p := data[|data| - 1];
    if p == 0 || p as nat > BLOCK || p as nat > |data| {
      return Err(InvalidPaddingValue(p));
    }
    var start := |data| - p as nat;
    for i := start to |data|
      invariant forall j :: start <= j < i ==> data[j] == p
    {
      if data[i] != p {
        assert data[start..][i - start] != p;
        return Err(InconsistentPadding);
      }
    }
    assert data[start..] == Repeat(p, p as nat);
    return Ok(data[..start]);
  }

  function Unpadded(data: seq<byte>): Result<seq<byte>, PadError> {
    if data == [] then Err(EmptyInput)
    else
      var p := data[|data| - 1];
      if p == 0 || p as nat > BLOCK || p as nat > |data| then Err(InvalidPaddingValue(p))
      else if data[|data| - p as nat..] != Repeat(p, p as nat) then Err(InconsistentPadding)
      else Ok(data[..|data| - p as nat])
  }

  lemma UnpadInvertsPad(data: seq<byte>)
    ensures Unpadded(Pad(data)) == Ok(data)
  {
    var n := BLOCK - |data| % BLOCK;
    assert Pad(data)[|data|..] == Repeat(n as byte, n);
  }

  /** An accepted input is the padding of its result exactly when it consists of
      whole blocks; the unpadder itself does not check that. */
  lemma PadInvertsUnpadIff(data: seq<byte>)
    requires Unpadded(data).Ok?
    ensures Pad(Unpadded(data).value) == data <==> |data| % BLOCK == 0
  {
    var p := data[|data| - 1] as nat;
    var kept := |data| - p;
    assert data == data[..kept] + data[kept..];
    if |data| % BLOCK == 0 {
      BlockRemainder(kept, p);
    }
  }

  lemma BlockRemainder(kept: nat, p: nat)
    requires 1 <= p <= BLOCK && (kept + p) % BLOCK == 0
    ensures BLOCK - kept % BLOCK == p
  {
    var q, r := kept / BLOCK, kept % BLOCK;
    assert kept + p == BLOCK * q + (r + p) && 1 <= r + p < 2 * BLOCK;
    assert (r + p) % BLOCK == 0;
  }
}

/**
 The encryption token: AES-CBC and HMAC over an IV-prefixed ciphertext. The block
 cipher and the MAC are parameters; only their stated laws are used.
 */
module Token {
  import opened Basics
  import Pkcs7

  datatype TokenError = InvalidKeyLength(length: nat) | AuthenticationFailed

  // `encrypt(key, iv, blocks)`, `decrypt(key, iv, blocks)` and `mac(key, message)`.
  datatype Cipher = Cipher(
    encrypt: (seq<byte>, seq<byte>, seq<byte>) -> seq<byte>,
    decrypt: (seq<byte>, seq<byte>, seq<byte>) -> seq<byte>,
    mac: (seq<byte>, seq<byte>) -> seq<byte>)

  // Encryption and decryption of whole blocks keep the length and are mutually
  // inverse, and a MAC has 32 bytes.
  ghost predicate Lawful(c: Cipher) {
    && (forall key, iv, blocks :: |blocks| % 16 == 0 ==>
          |c.encrypt(key, iv, blocks)| == |blocks| && c.decrypt(key, iv, c.encrypt(key, iv, blocks)) == blocks)
    && (forall key, iv, blocks :: |blocks| % 16 == 0 ==>
          |c.decrypt(key, iv, blocks)| == |blocks| && c.encrypt(key, iv, c.decrypt(key, iv, blocks)) == blocks)
    && (forall key, message :: |c.mac(key, message)| == 32)
  }

  // A cipher that changes nothing, with a MAC that is its own key.
  const PLAIN_CIPHER: Cipher := Cipher(
    (key, iv, blocks) => blocks, (key, iv, blocks) => blocks,
    (key, message) => if |key| == 32 then key else seq(32, i => 0))

  /** The laws can be met. */
  lemma PlainCipherIsLawful()
    ensures Lawful(PLAIN_CIPHER)
  {
  }

  // The signing half and the encryption half.
  function SplitKey(key: seq<byte>): Result<(seq<byte>, seq<byte>), TokenError> {
    if |key| == 64 then Ok((key[..32], key[32..]))
    else if |key| == 32 then Ok((key[..16], key[16..]))
    else Err(InvalidKeyLength(|key|))
  }

  predicate GoodKey(key: seq<byte>) {
    |key| == 64 || |key| == 32
  }

  function Encrypt(c: Cipher, plaintext: seq<byte>, key: seq<byte>, iv: seq<byte>): Result<seq<byte>, TokenError> {
    match SplitKey(key)
    case Err(e) => Err(e)
    case Ok((signing, encryption)) =>
      var signed := iv + c.encrypt(encryption, iv, Pkcs7.Pad(plaintext));
      Ok(signed + c.mac(signing, signed))
  }

  function Decrypt(c: Cipher, token: seq<byte>, key: seq<byte>): Result<seq<byte>, TokenError> {
    match SplitKey(key)
    case Err(e) => Err(e)
    case Ok((signing, encryption)) =>
      if |token| < 64 then Err(AuthenticationFailed)
      else
        var signed, received := token[..|token| - 32], token[|token| - 32..];
        if c.mac(signing, signed) != received then Err(AuthenticationFailed)
        else
          var iv, blocks := signed[..16], signed[16..];
          if |blocks| == 0 || |blocks| % 16 != 0 then Err(AuthenticationFailed)
          else
            match Pkcs7.Unpadded(c.decrypt(encryption, iv, blocks))
            case Err(_) => Err(AuthenticationFailed)
            case Ok(plaintext) => Ok(plaintext)
  }

  /** For every plaintext, both key sizes and every IV, a token decrypts to its
      plaintext and has the stated length. */
  lemma RoundTrip(c: Cipher, plaintext: seq<byte>, key: seq<byte>, iv: seq<byte>)
    requires Lawful(c) && GoodKey(key) && |iv| == 16
    ensures Encrypt(c, plaintext, key, iv).Ok?
    ensures |Encrypt(c, plaintext, key, iv).value| == 48 + 16 * (|plaintext| / 16 + 1)
    ensures Decrypt(c, Encrypt(c, plaintext, key, iv).value, key) == Ok(plaintext)
  {
    var (signing, encryption) := SplitKey(key).value;
    var padded := Pkcs7.Pad(plaintext);
    var blocks := c.encrypt(encryption, iv, padded);
    var signed := iv + blocks;
    var token := signed + c.mac(signing, signed);
    assert token[..|token| - 32] == signed && token[|token| - 32..] == c.mac(signing, signed);
    assert signed[..16] == iv && signed[16..] == blocks;
    Pkcs7.UnpadInvertsPad(plaintext);
  }

  /** Nothing else decrypts: a token is accepted as a plaintext exactly if it is
      that plaintext's encryption under the IV it carries, and a good key rejects
      every other token in the same way. */
  lemma DecryptsIff(c: Cipher, token: seq<byte>, key: seq<byte>, plaintext: seq<byte>)
    requires Lawful(c)
    ensures Decrypt(c, token, key) == Ok(plaintext) <==>
            |token| >= 16 && Encrypt(c, plaintext, key, token[..16]) == Ok(token)
    ensures Decrypt(c, token, key).Err? ==>
            Decrypt(c, token, key).error == if GoodKey(key) then AuthenticationFailed else InvalidKeyLength(|key|)
  {
    if Decrypt(c, token, key) == Ok(plaintext) {
      AcceptedIsCanonical(c, token, key);
    }
    if |token| >= 16 && Encrypt(c, plaintext, key, token[..16]) == Ok(token) {
      RoundTrip(c, plaintext, key, token[..16]);
    }
  }

  lemma AcceptedIsCanonical(c: Cipher, token: seq<byte>, key: seq<byte>)
    requires Lawful(c) && Decrypt(c, token, key).Ok?
    ensures |token| >= 64 && Encrypt(c, Decrypt(c, token, key).value, key, token[..16]) == Ok(token)
  {
    var (signing, encryption) := SplitKey(key).value;
    var signed, received := token[..|token| - 32], token[|token| - 32..];
    var iv, blocks := signed[..16], signed[16..];
    var padded := c.decrypt(encryption, iv, blocks);
    Pkcs7.PadInvertsUnpadIff(padded);
    assert c.encrypt(encryption, iv, padded) == blocks;
    assert iv == token[..16] && signed == iv + blocks && token == signed + received;
  }

  lemma PlainCipherRejects(token: seq<byte>, plaintext: seq<byte>, key: seq<byte>, wrong: seq<byte>, iv: seq<byte>)
    requires |key| == |wrong| == 64 && key[..32] != wrong[..32] && |iv| == 16
    requires Encrypt(PLAIN_CIPHER, plaintext, key, iv) == Ok(token)
    ensures Decrypt(PLAIN_CIPHER, token, wrong).Err?
  {
    assert |token| >= 32 && token[|token| - 32..] == key[..32];
  }
}
