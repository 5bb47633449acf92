/** The two libraries the account code trusts, bcryptjs and jsonwebtoken,
    kept abstract: each is a pair of functions, and the one property the code
    relies on is a predicate that callers require of them. */
module Crypto {
  import opened Common

  /** `bcrypt.hash(plain, 10)` with its per-call random salt made an input,
      and `bcrypt.compare(candidate, hash)`. */
  datatype Bcrypt = Bcrypt(hash: (string, string) -> string, compare: (string, string) -> bool)
  {
    /** A password matches every hash made of it. */
    ghost predicate Sound() {
      forall plain, salt :: compare(plain, hash(plain, salt))
    }
  }

  /** The claims the routes sign: `{ userId, email, name }`. */
  datatype Payload = Payload(userId: ObjectId, email: string, name: string)

  /** What `jwt.verify` hands back: the claims plus the `iat` and `exp` that
      `jwt.sign` added, in seconds. */
  datatype Decoded = Decoded(payload: Payload, iat: int, exp: int)

  /** `jwt.sign(payload, secret, { expiresIn })` and `jwt.verify(token, secret)`
      with the secret fixed. `sign` takes the lifetime and the issue time in
      seconds; `verify` takes the current time in seconds and gives `None` where
      the library throws (bad signature, malformed token, expired). */
  datatype Jwt = Jwt(sign: (Payload, nat, int) -> string, verify: (string, int) -> Option<Decoded>)
  {
    /** A signed token is never empty and holds no space (it is
        `header.payload.signature` in base64url), verifies to its own claims
        until `iat + ttl`, and is rejected from that second on. */
    ghost predicate Sound() {
      && (forall claims, ttl: nat, iat :: sign(claims, ttl, iat) != "" && ' ' !in sign(claims, ttl, iat))
      && (forall claims, ttl: nat, iat, now ::
            verify(sign(claims, ttl, iat), now)
            == if now < iat + ttl then Some(Decoded(claims, iat, iat + ttl)) else None)
    }
  }

  /** `expiresIn: "24h"` in seconds. */
  const Ttl24h: nat := 24 * 60 * 60

  /** `expiresIn: "7d"` in seconds. */
  const Ttl7d: nat := 7 * 24 * 60 * 60

  /** The `iat` that jsonwebtoken stamps: `Math.floor(Date.now() / 1000)`. */
  function Seconds(nowMs: nat): nat {
    nowMs / 1000
  }
}
