/** The cryptographic collaborators of the authentication core: `jsonwebtoken`
    (sign/verify), `bcrypt`/`bcryptjs` (hash/compare) and `crypto`'s SHA-256.
    They are not implemented: a `Crypto` value bundles arbitrary total
    functions, and `Axioms` states the only properties the model relies on. */
module Crypto {
  import opened Js

  type UserId = string

  /** The payload `jwt.verify` returns: the signed `id` and the issue time
      `iat` in whole seconds. */
  datatype Claims = Claims(id: UserId, iat: int)

  datatype Crypto = Crypto(
    /** `jwt.sign({ id }, JWT_SECRET, { expiresIn })` at issue second `iat`. */
    sign: (UserId, int) -> string,
    /** `jwt.verify(token, JWT_SECRET)` at second `now`; None when it throws. */
    verify: (string, int) -> Option<Claims>,
    /** `JWT_EXPIRES_IN`, in seconds. */
    expiresIn: int,
    /** `bcrypt.hash(plaintext, cost)`. */
    hash: (string, nat) -> string,
    /** `bcrypt.compare(candidate, hash)`. */
    compare: (string, string) -> bool,
    /** `createHash('sha256').update(s).digest('hex')`. */
    sha256: string -> string)

  ghost predicate Axioms(c: Crypto) {
    // a token verifies to its own claims while it has not expired
    && (forall id, iat, now :: iat <= now < iat + c.expiresIn ==>
          c.verify(c.sign(id, iat), now) == Some(Claims(id, iat)))
    // only signed tokens verify, and never after their expiry
    && (forall t, now :: c.verify(t, now).Some? ==>
          now < c.verify(t, now).value.iat + c.expiresIn &&
          t == c.sign(c.verify(t, now).value.id, c.verify(t, now).value.iat))
    // a signed token is a non-empty string without spaces (header.payload.signature)
    && (forall id, iat :: c.sign(id, iat) != "")
    && (forall id, iat, k :: 0 <= k < |c.sign(id, iat)| ==> c.sign(id, iat)[k] != ' ')
    // bcrypt: a candidate matches a hash exactly when it is the hashed plaintext
    && (forall p, q, cost :: c.compare(p, c.hash(q, cost)) <==> p == q)
    // a bcrypt hash is never its own plaintext and carries no surrounding whitespace
    && (forall p, cost :: c.hash(p, cost) != p)
    && (forall p, cost :: Trim(c.hash(p, cost)) == c.hash(p, cost))
    // SHA-256 is treated as collision-free
    && (forall a, b :: c.sha256(a) == c.sha256(b) ==> a == b)
  }
}
