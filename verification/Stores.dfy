/**
 What the two session stores and the bridge compute: opaque tokens resolve through a hash of the
 token in the table, stateless tokens through the key ring and a signature.
 */
module Stores {
  import opened Wrappers
  import opened Clock
  import opened Base64Url
  import opened JwtClaims
  import opened Primitives
  import opened Jwt
  import opened KeyRing
  import opened Sessions
  import Text

  // ---- opaque tokens ----

  function HashToken(l: Library, token: string): string {
    Encode(l.sha(token))
  }

  function FirstSixteen(s: string): string {
    if |s| < 16 then s else s[..16]
  }

  /** The session `OpaqueStore.Create` stores. */
  function OpaqueSession(l: Library, s: Session, token: string, now: Time, ttl: Time): Session {
    s.(issuedAt := now, expiresAt := now + ttl,
       id := if s.id == "" then FirstSixteen(HashToken(l, token)) else s.id)
  }

  function ValidateOpaque(l: Library, t: Table, token: string, now: Time): Option<Session> {
    Lookup(t, HashToken(l, token), now)
  }

  lemma HashTokenInjective(l: Library, a: string, b: string)
    requires HashInjective(l) && HashToken(l, a) == HashToken(l, b)
    ensures a == b
  {
    EncodeInjective(l.sha(a), l.sha(b));
  }

  /** A session created under a token is validated by it, as it was but for times and id, up to its expiry and not after. */
  lemma CreateThenLookup(l: Library, t: Table, s: Session, token: string, at: Time, ttl: Time, put: Time, now: Time)
    ensures var row := Encode(l.sha(token));
            ValidateOpaque(l, Next(t, Op.Put(HashToken(l, token), OpaqueSession(l, s, token, at, ttl), put)), token, now)
            == if now <= at + ttl then
                 Some(Session(if s.id != "" then s.id else if |row| >= 16 then row[..16] else row,
                              s.subject, s.clientID, s.scope, at, at + ttl, s.extra))
               else None
  {
    hide Encode;
  }

  // ---- stateless tokens ----

  function TextExtras(extra: map<string, string>): Object {
    map k | k in extra :: Str(extra[k])
  }

  function StringExtras(extra: Object): map<string, string> {
    map k | k in extra && extra[k].Str? :: extra[k].text
  }

  /** The claims `JWTStore.Create` signs. */
  function SessionClaims(issuer: string, s: Session, id: string, now: Time, ttl: Time): Claims {
    Claims(issuer, s.subject, [s.clientID], Unix(now + ttl), 0, Unix(now),
           if s.id == "" then id else s.id, s.scope, TextExtras(s.extra))
  }

  /** The session `JWTStore.Validate` reports. */
  function ClaimsSession(c: Claims): Session {
    Session(c.jwtID, c.subject, if c.audience == [] then "" else c.audience[0], c.scope,
            FromUnix(c.issuedAt), FromUnix(c.expiresAt), StringExtras(c.extra))
  }

  /** `JWTStore.Validate` with the key ring it looks the key up in and the clock it checks times with. */
  function ValidateJwt(l: Library, signed: Signed, ring: Ring, token: string, now: Time): Option<Session> {
    match PeekKid(l, token)
    case None => None
    case Some(h) =>
      match Find(ring, h.kid)
      case None => None
      case Some(k) =>
        match Verify(l, signed, k.alg, k.pair, token, now)
        case None => None
        case Some(c) => Some(ClaimsSession(c))
  }

  lemma ExtrasSurvive(extra: map<string, string>)
    ensures StringExtras(TextExtras(extra)) == extra
  {
  }

  /**
   Validating a minted token while its key resolves gives back the session it was minted for, with
   times truncated to seconds, exactly as long as its claims are live.
   */
  lemma ValidateAfterSign(l: Library, signed: Signed, ring: Ring, k: Key, c: Claims, now: Time)
    requires JsonRoundTrips(l) && SignaturesMatch(l) && Sound(c) && Find(ring, k.Kid()) == Some(k)
    requires (k.pair, SigningInput(l, Header(AlgName(k.alg), "JWT", k.Kid()), c)) in signed
    ensures ValidateJwt(l, signed, ring, SignToken(l, k.alg, k.Kid(), k.pair, c), now)
            == if Live(c, now) then Some(ClaimsSession(c)) else None
  {
    PeekSigned(l, k.alg, k.Kid(), k.pair, c);
    VerifySigned(l, signed, k.alg, k.Kid(), k.pair, c, k.alg, k.pair, now);
  }

  lemma CreateThenValidate(l: Library, signed: Signed, ring: Ring, k: Key, issuer: string, s: Session, id: string,
                           ttl: Time, at: Time, now: Time)
    requires JsonRoundTrips(l) && SignaturesMatch(l) && Find(ring, k.Kid()) == Some(k)
    requires Sound(SessionClaims(issuer, s, id, at, ttl))
    requires (k.pair, SigningInput(l, Header(AlgName(k.alg), "JWT", k.Kid()), SessionClaims(issuer, s, id, at, ttl))) in signed
    requires Live(SessionClaims(issuer, s, id, at, ttl), now)
    ensures ValidateJwt(l, signed, ring, SignToken(l, k.alg, k.Kid(), k.pair, SessionClaims(issuer, s, id, at, ttl)), now)
            == Some(s.(id := if s.id == "" then id else s.id,
                       issuedAt := FromUnix(Unix(at)), expiresAt := FromUnix(Unix(at + ttl))))
  {
    ValidateAfterSign(l, signed, ring, k, SessionClaims(issuer, s, id, at, ttl), now);
    ExtrasSurvive(s.extra);
  }

  // ---- the bridge ----

  datatype Mode = Stateless | Stateful | Unknown(name: string)

  function ValidateAny(l: Library, signed: Signed, t: Table, ring: Ring, token: string, now: Time): Option<(Session, Mode)> {
    match ValidateOpaque(l, t, token, now)
    case Some(s) => Some((s, Stateful))
    case None =>
      match ValidateJwt(l, signed, ring, token, now)
      case Some(s) => Some((s, Stateless))
      case None => None
  }

  /** Every table key is the hash of a token without a dot. */
  ghost predicate DotFreeKeys(l: Library, t: Table) {
    forall k :: k in t ==> exists token :: HashToken(l, token) == k && Text.Without(token, '.')
  }

  /**
   The two kinds of token cannot be confused: what is accepted as stateful has no dot, what is
   accepted as stateless splits into three segments.
   */
  lemma KindsDisjoint(l: Library, signed: Signed, t: Table, ring: Ring, token: string, now: Time)
    requires HashInjective(l) && DotFreeKeys(l, t)
    ensures match ValidateAny(l, signed, t, ring, token, now)
            case Some((_, Stateful)) => Text.Without(token, '.') && ValidateJwt(l, signed, ring, token, now).None?
            case Some((_, Stateless)) => |Text.Split(token)| == 3 && HashToken(l, token) !in t
            case _ => true
  {
    if HashToken(l, token) in t {
      var original :| HashToken(l, original) == HashToken(l, token) && Text.Without(original, '.');
      HashTokenInjective(l, original, token);
      Text.SplitDotFree(token);
    }
  }
}
