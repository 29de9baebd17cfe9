/**
  The JWT helpers `signJwt` and `verifyJwt` of utils/jws, which this model does not see.
  They are the two functions of a `Codec` value; what the server relies on about them is
  the predicate `Sound`, which every operation that signs or verifies takes as a precondition.
 */
module Jws {
  import opened Outcomes

  /** The two key pairs: `accessToken{Private,Public}Key` and `refreshToken{Private,Public}Key`. */
  datatype KeyKind = Access | Refresh

  function Other(k: KeyKind): (o: KeyKind)
    ensures o != k
  {
    if k == Access then Refresh else Access
  }

  /**
    `sign(sub, kind, issuedAt, expiresInMinutes)` is `signJwt({ sub }, "<kind>TokenPrivateKey", { expiresIn })`
    at time `issuedAt` (milliseconds); `verify(token, kind, now)` is `verifyJwt(token, "<kind>TokenPublicKey")`
    at time `now`: the token's `sub`, or `None` where `verifyJwt` gives `null`.
   */
  datatype Codec = Codec(
    sign: (string, KeyKind, int, nat) -> string,
    verify: (string, KeyKind, int) -> Option<string>)

  /**
    What the server assumes of the codec: a signed token is a non-empty string; it verifies, at the
    moment it is issued, under the public key of the kind that signed it, giving back its subject;
    and it never verifies under the public key of the other kind (separate key pairs).
   */
  ghost predicate Sound(c: Codec) {
    && (forall sub, k, t, m :: |c.sign(sub, k, t, m)| > 0)
    && (forall sub, k, t, m :: m > 0 ==> c.verify(c.sign(sub, k, t, m), k, t) == Some(sub))
    && (forall sub, k, t, m, now :: c.verify(c.sign(sub, k, t, m), Other(k), now) == None)
  }

  function Tag(k: KeyKind): char {
    if k == Access then 'A' else 'R'
  }

  /** The assumptions can be met together: a codec that tags each token with its key kind is sound. */
  lemma SoundCodecExists()
    ensures exists c :: Sound(c)
  {
    var c := Codec(
      (sub: string, k: KeyKind, t: int, m: nat) => [Tag(k)] + sub,
      (tok: string, k: KeyKind, now: int) => if |tok| > 0 && tok[0] == Tag(k) then Some(tok[1..]) else None);
    forall sub, k, t, m ensures c.verify(c.sign(sub, k, t, m), k, t) == Some(sub) {
      assert ([Tag(k)] + sub)[1..] == sub;
    }
    assert Sound(c);
  }
}
