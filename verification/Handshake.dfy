/** What both devices do while they establish who they are talking to. */
module Handshake {
  import opened Basics
  import opened Framing
  import opened Protocol
  import Base64
  import Token

  datatype Outcome =
    | Finished
    | Declined
    | BadSignature
    | TooManyAttempts
    | ProtocolError  // a message of the wrong kind, one that does not parse, or an unexpected answer
    | Crashed

  /** What a device knows when the session starts. */
  datatype Config = Config(
    serde: Serde, crypto: Token.Crypto, key: Token.SigningKey, expecting: Option<Token.VerifyingKey>,
    nonce: bytes, pin: Option<PinConfig>)

  const NONCE_LENGTH: nat := 32

  predicate ValidateNonce(nonce: bytes) {
    16 <= |nonce| <= 128
  }

  function NonceText(c: Config): Message {
    Text(c.serde.nonce.encode(NonceMessage(Base64.Encode(c.nonce))))
  }

  /** The peer's part of the nonce, or `None` for a message that is not an acceptable nonce. */
  function ReadNonce(serde: Serde, msg: Message): Option<bytes> {
    if !msg.isString then None
    else
      match serde.nonce.decode(msg.data)
      case None => None
      case Some(m) =>
        match Base64.Decode(m.nonce)
        case None => None
        case Some(nonce) => if ValidateNonce(nonce) then Some(nonce) else None
  }

  /** The nonces that are accepted: canonical base64url of 16 to 128 octets, in a text message. */
  lemma NonceReadIff(serde: Serde, msg: Message, nonce: bytes)
    ensures ReadNonce(serde, msg) == Some(nonce) <==>
            && msg.isString && 16 <= |nonce| <= 128
            && serde.nonce.decode(msg.data) == Some(NonceMessage(Base64.Encode(nonce)))
  {
    Base64.DecodeEncode(nonce);
    if msg.isString && serde.nonce.decode(msg.data).Some? {
      Token.DecodesIff(serde.nonce.decode(msg.data).value.nonce, nonce);
    }
  }

  lemma NonceRoundTrip(c: Config)
    requires Faithful(c.serde.nonce) && ValidateNonce(c.nonce)
    ensures ReadNonce(c.serde, NonceText(c)) == Some(c.nonce)
  {
    Base64.DecodeEncode(c.nonce);
  }

  /** The check on the peer's token: nothing is checked unless a key is expected. */
  function Trust(c: Config, token: string, nonce: bytes): Token.Check {
    match c.expecting
    case None => Token.Accepted
    case Some(key) => Token.VerifyNonce(c.crypto, key, token, nonce)
  }

  function OwnToken(c: Config, nonce: bytes): string {
    Token.GenerateNonce(c.crypto, c.key, nonce)
  }

  /** The peer proved, for this very nonce, that it holds the expected key, if one is expected. */
  ghost predicate Proven(c: Config, token: string, nonce: bytes) {
    c.expecting.Some? ==> Token.Vouches(c.crypto, c.expecting.value, token, nonce)
  }

  lemma TrustIffProven(c: Config, token: string, nonce: bytes)
    ensures Trust(c, token, nonce) == Token.Accepted <==> Proven(c, token, nonce)
  {
    if c.expecting.Some? {
      Token.AcceptedIff(c.crypto, c.expecting.value, token, nonce);
    }
  }

  /** A token from another session proves nothing, whoever made it. */
  lemma ReplayProvesNothing(c: Config, signer: Token.SigningKey, earlier: bytes, nonce: bytes)
    requires c.expecting.Some? && earlier != nonce
    ensures !Proven(c, Token.GenerateNonce(c.crypto, signer, earlier), nonce)
  {
    Token.OneNonceOnly(c.crypto, c.expecting.value, signer, earlier, nonce);
  }

  /** A token made by an honest peer is accepted for its nonce if its key, or none, is expected, and for no other nonce
      if one is; and it never crashes the check. */
  lemma HonestTokens(c: Config, peer: Config, nonce: bytes, other: bytes)
    requires c.crypto == peer.crypto && c.crypto.SignsCorrectly()
    ensures Trust(c, OwnToken(peer, nonce), other) != Token.Panicked
    ensures c.expecting == None || c.expecting == Some(c.crypto.PublicKey(peer.key)) ==>
              (Trust(c, OwnToken(peer, nonce), other) == Token.Accepted <==> c.expecting == None || nonce == other)
  {
    Token.GeneratedFields(c.crypto, peer.key, nonce);
    Token.GeneratedIsAccepted(c.crypto, peer.key, nonce);
    TrustIffProven(c, OwnToken(peer, nonce), other);
    if c.expecting.Some? && nonce != other {
      ReplayProvesNothing(c, peer.key, nonce, other);
    }
  }
}
