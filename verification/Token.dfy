/** The dot-separated identity tokens: hash of public key and salt, the salt, and a signature. */
module Token {
  import opened Basics
  import opened Octets
  import Base64

  // Private keys are opaque; public keys carry their DER form and know their signature method.
  type SigningKey = bytes

  datatype VerifyingKey = Ed25519(der: bytes) | RsaPss(der: bytes)
  {
    function Method(): string {
      if Ed25519? then "ed25519" else "rsa-pss"
    }
  }

  /** The cryptographic primitives, of which only correctness of signing is ever assumed. */
  datatype Crypto = Crypto(
    sha256: bytes -> bytes,
    publicDer: SigningKey -> bytes,
    sign: (SigningKey, bytes) -> bytes,
    verify: (VerifyingKey, bytes, bytes) -> bool)
  {
    function PublicKey(key: SigningKey): VerifyingKey {
      Ed25519(publicDer(key))
    }

    ghost predicate SignsCorrectly() {
      forall key: SigningKey, msg: bytes :: verify(PublicKey(key), msg, sign(key, msg))
    }
  }

  /** How a check may end. Slicing a token of fewer than five fields panics rather than returning an error. */
  datatype Check = Accepted | Rejected | Panicked

  function Split(s: string, separator: char): (fields: seq<string>)
    ensures |fields| >= 1
  {
    if s == "" then [""]
    else
      var fields := Split(s[1..], separator);
      if s[0] == separator then [""] + fields
      else [[s[0]] + fields[0]] + fields[1..]
  }

  function Join(fields: seq<string>, separator: char): string
    requires fields != []
  {
    if |fields| == 1 then fields[0]
    else fields[0] + [separator] + Join(fields[1..], separator)
  }

  lemma {:induction false} SplitField(field: string, separator: char, rest: string)
    requires separator !in field
    ensures Split(field, separator) == [field]
    ensures Split(field + [separator] + rest, separator) == [field] + Split(rest, separator)
  {
    var s := field + [separator] + rest;
    if field == "" {
      assert s[1..] == rest;
    } else {
      SplitField(field[1..], separator, rest);
      assert s[1..] == field[1..] + [separator] + rest;
      assert [field[0]] + field[1..] == field;
    }
  }

  lemma {:induction false} SplitJoin(fields: seq<string>, separator: char)
    requires fields != [] && forall f :: f in fields ==> separator !in f
    ensures Split(Join(fields, separator), separator) == fields
  {
    if |fields| == 1 {
      SplitField(fields[0], separator, "");
      assert fields == [fields[0]];
    } else {
      SplitJoin(fields[1..], separator);
      SplitField(fields[0], separator, Join(fields[1..], separator));
    }
  }

  function Digest(crypto: Crypto, der: bytes, salt: bytes): bytes {
    crypto.sha256(der + salt)
  }

  function GenerateNonce(crypto: Crypto, key: SigningKey, salt: bytes): string {
    var digest := Digest(crypto, crypto.publicDer(key), salt);
    Join(["sha256", Base64.Encode(digest), Base64.Encode(salt), "ed25519",
          Base64.Encode(crypto.sign(key, digest))], '.')
  }

  function ExtractSignatureIdentifier(token: string): Option<string> {
    var parts := Split(token, '.');
    if |parts| > 3 then Some(parts[3]) else None
  }

  function VerifyWith(crypto: Crypto, key: VerifyingKey, token: string, verifySalt: bytes -> bool): Check {
    var parts := Split(token, '.');
    if |parts| < 5 then Panicked
    else if parts[0] != "sha256" then Rejected
    else if parts[3] != key.Method() then Rejected
    else
      match Base64.Decode(parts[2])
      case None => Rejected
      case Some(salt) =>
        if !verifySalt(salt) then Rejected
        else
          var digest := Digest(crypto, key.der, salt);
          if Base64.Encode(digest) != parts[1] then Rejected
          else
            match Base64.Decode(parts[4])
            case None => Rejected
            case Some(signature) =>
              if crypto.verify(key, digest, signature) then Accepted else Rejected
  }

  function VerifyNonce(crypto: Crypto, key: VerifyingKey, token: string, nonce: bytes): Check {
    VerifyWith(crypto, key, token, salt => salt == nonce)
  }

  /** What a token says: the key, by a hash of its public half and the salt, the salt, and a signature over that hash. */
  lemma GeneratedFields(crypto: Crypto, key: SigningKey, salt: bytes)
    ensures var hash := crypto.sha256(crypto.publicDer(key) + salt);
            Split(GenerateNonce(crypto, key, salt), '.')
              == ["sha256", Base64.Encode(hash), Base64.Encode(salt), "ed25519", Base64.Encode(crypto.sign(key, hash))]
  {
    var digest := Digest(crypto, crypto.publicDer(key), salt);
    Base64.EncodeHasNoDot(digest);
    Base64.EncodeHasNoDot(salt);
    Base64.EncodeHasNoDot(crypto.sign(key, digest));
    SplitJoin(["sha256", Base64.Encode(digest), Base64.Encode(salt), "ed25519",
               Base64.Encode(crypto.sign(key, digest))], '.');
  }

  /** What a key prints, its public half accepts. */
  lemma GeneratedIsAccepted(crypto: Crypto, key: SigningKey, salt: bytes)
    requires crypto.SignsCorrectly()
    ensures VerifyNonce(crypto, crypto.PublicKey(key), GenerateNonce(crypto, key, salt), salt) == Accepted
  {
    GeneratedWith(crypto, key, salt, s => s == salt);
  }

  lemma DecodesIff(field: string, data: bytes)
    ensures Base64.Decode(field) == Some(data) <==> field == Base64.Encode(data)
  {
    Base64.DecodeEncode(data);
    if Base64.Decode(field).Some? {
      Base64.EncodeDecode(field);
    }
  }

  /** The holder of the private half of `key` signed the hash of its public half and `nonce`, and the token says so. */
  ghost predicate Vouches(crypto: Crypto, key: VerifyingKey, token: string, nonce: bytes) {
    var parts, hash := Split(token, '.'), crypto.sha256(key.der + nonce);
    && |parts| >= 5
    && parts[0] == "sha256"
    && parts[1] == Base64.Encode(hash)
    && parts[2] == Base64.Encode(nonce)
    && parts[3] == (if key.Ed25519? then "ed25519" else "rsa-pss")
    && exists signature :: Signs(crypto, key, hash, parts[4], signature)
  }

  predicate Signs(crypto: Crypto, key: VerifyingKey, hash: bytes, field: string, signature: bytes) {
    field == Base64.Encode(signature) && crypto.verify(key, hash, signature)
  }

  /** Acceptance for a nonce is exactly that, and ignores any field past the fifth; the key type was chosen by the field
      that is compared. */
  lemma AcceptedIff(crypto: Crypto, key: VerifyingKey, token: string, nonce: bytes)
    ensures VerifyNonce(crypto, key, token, nonce) == Accepted <==> Vouches(crypto, key, token, nonce)
    ensures Vouches(crypto, key, token, nonce) ==> ExtractSignatureIdentifier(token) == Some(key.Method())
  {
    var parts := Split(token, '.');
    if |parts| >= 5 {
      var hash := crypto.sha256(key.der + nonce);
      DecodesIff(parts[2], nonce);
      forall signature ensures Base64.Decode(parts[4]) == Some(signature) <==> parts[4] == Base64.Encode(signature) {
        DecodesIff(parts[4], signature);
      }
      if VerifyNonce(crypto, key, token, nonce) == Accepted {
        assert Signs(crypto, key, hash, parts[4], Base64.Decode(parts[4]).value);
      }
    }
  }

  /** A token is good for one nonce only, whoever printed it and whichever key checks it. */
  lemma OneNonceOnly(crypto: Crypto, key: VerifyingKey, signer: SigningKey, salt: bytes, nonce: bytes)
    ensures Vouches(crypto, key, GenerateNonce(crypto, signer, salt), nonce) ==> salt == nonce
  {
    GeneratedFields(crypto, signer, salt);
    Base64.DecodeEncode(salt);
    Base64.DecodeEncode(nonce);
  }

  function Occurrences(s: string, c: char): nat {
    if s == "" then 0 else (if s[0] == c then 1 else 0) + Occurrences(s[1..], c)
  }

  lemma {:induction false} SplitCount(s: string, c: char)
    ensures |Split(s, c)| == Occurrences(s, c) + 1
  {
    if s != "" {
      SplitCount(s[1..], c);
    }
  }

  /** The check panics exactly on the tokens with fewer than four dots. */
  lemma PanicsIff(crypto: Crypto, key: VerifyingKey, token: string, nonce: bytes)
    ensures VerifyNonce(crypto, key, token, nonce) == Panicked <==> Occurrences(token, '.') < 4
  {
    SplitCount(token, '.');
  }

  // ---- Timestamps -----------------------------------------------------------------------------

  const U64: int := 0x1_0000_0000_0000_0000

  const MAX_AGE: int := 60 * 60

  function GenerateTimestamp(crypto: Crypto, key: SigningKey, now: nat): string {
    GenerateNonce(crypto, key, NumberBytes(now, 8, true))
  }

  // The age is computed in unsigned 64-bit arithmetic, which wraps when the timestamp lies in the future.
  predicate Fresh(salt: bytes, now: nat) {
    |salt| == 8 && (now - BytesNumber(salt, true)) % U64 <= MAX_AGE
  }

  function VerifyTimestamp(crypto: Crypto, key: VerifyingKey, token: string, now: nat): Check {
    VerifyWith(crypto, key, token, salt => Fresh(salt, now))
  }

  /** A printed timestamp is accepted for an hour from its second on, and neither before nor after,
      except that the clock's own wrap-around counts as going on. */
  lemma TimestampAcceptedIff(crypto: Crypto, key: SigningKey, issued: nat, now: nat)
    requires crypto.SignsCorrectly()
    requires issued < U64 && now < U64
    ensures VerifyTimestamp(crypto, crypto.PublicKey(key), GenerateTimestamp(crypto, key, issued), now) == Accepted
            <==> issued <= now <= issued + 3600 || now + 0x1_0000_0000_0000_0000 <= issued + 3600
  {
    var salt := NumberBytes(issued, 8, true);
    FreshIff(issued, now);
    GeneratedWith(crypto, key, salt, s => Fresh(s, now));
  }

  /** In general: the holder of the key vouched for a time, in eight octets with the most significant one first, that is at
      most an hour back. */
  lemma TimestampVouchedIff(crypto: Crypto, key: VerifyingKey, token: string, now: nat)
    requires now < 0x1_0000_0000_0000_0000
    ensures VerifyTimestamp(crypto, key, token, now) == Accepted <==>
            exists issued: nat :: issued < 0x1_0000_0000_0000_0000
              && Vouches(crypto, key, token, NumberBytes(issued, 8, true))
              && (issued <= now <= issued + 3600 || now + 0x1_0000_0000_0000_0000 <= issued + 3600)
  {
    hide Vouches;
    SaltIff(crypto, key, token, s => Fresh(s, now));
    if VerifyTimestamp(crypto, key, token, now) == Accepted {
      var salt :| Fresh(salt, now) && Vouches(crypto, key, token, salt);
      BytesRead(salt, true);
      NumberBound(salt, true);
      Powers();
      FreshIff(BytesNumber(salt, true), now);
    }
    forall issued: nat | issued < U64 && Vouches(crypto, key, token, NumberBytes(issued, 8, true))
      ensures Fresh(NumberBytes(issued, 8, true), now) <==>
              issued <= now <= issued + MAX_AGE || now + U64 <= issued + MAX_AGE
    {
      FreshIff(issued, now);
    }
  }

  /** Acceptance is always for the salt that the token names. */
  lemma SaltIff(crypto: Crypto, key: VerifyingKey, token: string, verifySalt: bytes -> bool)
    ensures VerifyWith(crypto, key, token, verifySalt) == Accepted <==>
            exists salt :: verifySalt(salt) && Vouches(crypto, key, token, salt)
  {
    var parts := Split(token, '.');
    forall salt | |parts| >= 5 && parts[2] == Base64.Encode(salt)
      ensures VerifyWith(crypto, key, token, verifySalt) == Accepted <==>
              verifySalt(salt) && Vouches(crypto, key, token, salt)
    {
      DecodesIff(parts[2], salt);
      AcceptedIff(crypto, key, token, salt);
    }
    if |parts| >= 5 && Base64.Decode(parts[2]).Some? {
      DecodesIff(parts[2], Base64.Decode(parts[2]).value);
    }
  }

  lemma FreshIff(issued: nat, now: nat)
    requires issued < U64 && now < U64
    ensures Fresh(NumberBytes(issued, 8, true), now)
            <==> issued <= now <= issued + MAX_AGE || now + U64 <= issued + MAX_AGE
  {
    Powers();
    NumberRead(issued, 8, true);
  }

  /** For a printed token the outcome is decided by the check on the salt alone. */
  lemma GeneratedWith(crypto: Crypto, key: SigningKey, salt: bytes, verifySalt: bytes -> bool)
    requires crypto.SignsCorrectly()
    ensures VerifyWith(crypto, crypto.PublicKey(key), GenerateNonce(crypto, key, salt), verifySalt)
            == if verifySalt(salt) then Accepted else Rejected
  {
    GeneratedFields(crypto, key, salt);
    Base64.DecodeEncode(salt);
    Base64.DecodeEncode(crypto.sign(key, Digest(crypto, crypto.publicDer(key), salt)));
  }
}
