/**
 * The signed-token layer that the token service relies on, kept abstract:
 * a token carries its claims and the key it was signed with, and decoding
 * succeeds exactly when the verifying key is the signing key. No bytes,
 * Base64 or HMAC are modelled.
 */
module TokenCodec {
  import opened Wrappers

  /** The two kinds of token the service issues (`TokenType`). */
  datatype TokenType = Access | Refresh

  /**
   * The HMAC key the service signs with. It stands for the key derived from
   * the UTF-8 bytes of a configured secret. The model identifies the key with
   * the secret it came from, which assumes that distinct secrets give distinct
   * keys (lossy encoding of unpaired surrogates and HMAC key padding aside).
   */
  datatype Key = Key(secret: string)

  /** The claims a token carries: subject id, nickname, kind and expiry (milliseconds). */
  datatype Claims = Claims(id: string, nickname: string, kind: TokenType, expireAt: int)

  /**
   * A token as presented by a caller: either a signed token with its claims
   * and signing key, or a string the parser cannot read as a token at all.
   */
  datatype Token = Jws(claims: Claims, signingKey: Key) | Unparsable(text: string)

  /** Key derivation from a secret (`Keys.hmacShaKeyFor(secret.toByteArray(UTF_8))`). */
  function DeriveKey(secret: string): Key
  {
    Key(secret)
  }

  /** Signs `claims` with `key`; only the same key can read them back. */
  function Encode(claims: Claims, key: Key): (t: Token)
    ensures Decode(t, key) == Some(claims)
    ensures forall other: Key :: other != key ==> Decode(t, other) == None
  {
    Jws(claims, key)
  }

  /** Parses and verifies a token; fails on an unreadable token or a signature by another key. */
  function Decode(t: Token, key: Key): (r: Option<Claims>)
    ensures r.Some? <==> t.Jws? && t.signingKey == key
  {
    match t
    case Jws(claims, signingKey) => if signingKey == key then Some(claims) else None
    case Unparsable(_) => None
  }

  /** Under the model's assumption, two secrets give the same key only when they are the same secret. */
  lemma DeriveKeyInjective(a: string, b: string)
    ensures DeriveKey(a) == DeriveKey(b) <==> a == b
  {
  }

  /**
   * Changing the claims or the key changes the token: a token determines both.
   * In the model this is constructor injectivity; it records the codec's
   * promise that tampering with the claims cannot go unnoticed.
   */
  lemma EncodeInjective(c1: Claims, k1: Key, c2: Claims, k2: Key)
    ensures Encode(c1, k1) == Encode(c2, k2) <==> c1 == c2 && k1 == k2
  {
  }
}
