/**
 * The foreign helpers the services call: the JSON Web Token library
 * (`jwt.GenerateJWT`, `jwt.VerifyJwtToken`, `jwt.GenerateRefreshToken`,
 * `jwt.VerifyRefreshToken`) and the bcrypt helpers (`utils.HashPassword`,
 * `utils.CheckPasswordHash`). Their code is not part of this model: each is
 * a function value, and what the services rely on is stated as a predicate
 * that lemmas take as a hypothesis.
 */
module Foreign {
  import opened Models

  /**
   * What a verifier hands back: the claims and no error, or an error with
   * the claims it could still decode (an expired but well-signed token) or
   * none at all.
   */
  datatype Verdict<+C> = Verified(claims: C) | Rejected(recovered: Option<C>, fault: TokenFault)

  /** The claims pointer a verifier returns, whether or not it also returns an error. */
  function Decoded<C>(v: Verdict<C>): Option<C> {
    match v
    case Verified(c) => Some(c)
    case Rejected(recovered, _) => recovered
  }

  /**
   * The token library. Signing reads the clock (issued-at and expiry) and may
   * fail; verification checks expiry against the clock.
   */
  datatype Codec = Codec(
    signAccess: (Claims, Time) -> Option<Token>,
    verifyAccess: (Token, Time) -> Verdict<Claims>,
    signRefresh: (ObjectId, Time) -> Option<Token>,
    verifyRefresh: (Token, Time) -> Verdict<ObjectId>,
    accessTtl: nat,
    refreshTtl: nat)

  /**
   * A token verifies to what it was signed from for its lifetime, and after
   * that is rejected as expired with its claims still decoded.
   */
  ghost predicate SoundCodec(c: Codec) {
    && (forall cl, t, t' | c.signAccess(cl, t).Some? && t <= t' < t + c.accessTtl ::
          c.verifyAccess(c.signAccess(cl, t).value, t') == Verified(cl))
    && (forall cl, t, t' | c.signAccess(cl, t).Some? && t + c.accessTtl <= t' ::
          c.verifyAccess(c.signAccess(cl, t).value, t') == Rejected(Some(cl), Expired))
    && (forall id: ObjectId, t, t' | c.signRefresh(id, t).Some? && t <= t' < t + c.refreshTtl ::
          c.verifyRefresh(c.signRefresh(id, t).value, t') == Verified(id))
    && (forall id: ObjectId, t, t' | c.signRefresh(id, t).Some? && t + c.refreshTtl <= t' ::
          c.verifyRefresh(c.signRefresh(id, t).value, t') == Rejected(Some(id), Expired))
  }

  /** Signing never fails (the signing key is configured). */
  ghost predicate SignsAll(c: Codec) {
    && (forall cl, t :: c.signAccess(cl, t).Some?)
    && (forall id: ObjectId, t :: c.signRefresh(id, t).Some?)
  }

  /** The password hasher: hashing may fail; checking compares a password with a hash. */
  datatype Hasher = Hasher(hash: string -> Option<string>, check: (string, string) -> bool)

  /**
   * A password matches its own hash, a hash is never the password itself,
   * and nothing matches the empty hash (bcrypt refuses a hash that short).
   */
  ghost predicate SoundHasher(h: Hasher) {
    && (forall p | h.hash(p).Some? :: h.check(p, h.hash(p).value))
    && (forall p | h.hash(p).Some? :: h.hash(p).value != p)
    && (forall p :: !h.check(p, ""))
  }
}
