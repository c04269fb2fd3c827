/**
 What the tokens of a response say, read from the tokens themselves and from the record of the login:
 the claims of ID tokens and of stateless access tokens, and the kind of access token each client gets.
 */
module TokenClaims {
  import opened Wrappers
  import opened Clock
  import opened JwtClaims
  import opened Primitives
  import opened Jwt
  import opened Stores
  import opened Grants
  import opened Sidecar
  import opened Provenance
  import opened Responses
  import Text

  /** The second segment of the token is this claim set, written out. */
  ghost predicate Says(w: World, token: string, c: Claims) {
    |Text.Split(token)| == 3 && ClaimsOf(w.lib, Text.Split(token)[1]) == Some(c)
  }

  lemma SignedSays(w: World, s: State, g: Grant, m: Minted, isId: bool)
    requires JsonRoundTrips(w.lib) && SignedFor(w, s, g, m, isId)
    ensures Says(w, TokenOf(w, m.key, m.draft), m.draft.claims) && DraftFrom(w, g, m.draft) && m.draft.readAt <= s.now
  {
    hide Sound, IdExtras, MadeFor, SignToken, ClaimsOf;
    TokenParts(w.lib, m.key.alg, m.key.Kid(), m.key.pair, m.draft.claims);
    ClaimsSegment(w.lib, m.draft.claims);
  }

  // ---- ID tokens ----

  /** The claims every ID token of this login makes, at whatever reading of the clock it was minted. */
  ghost predicate IdTokenFor(w: World, login: Login, at: Time, c: Claims) {
    && c.issuer == w.cfg.issuer && c.subject == login.code.subject && c.audience == [login.query.clientID]
    && c.issuedAt == Unix(at) && c.expiresAt == Unix(at) + 600 && c.notBefore == 0 && c.jwtID == "" && c.scope == ""
  }

  /**
   What an ID token says. One that answers a code carries the login's time and the nonce the login asked
   for; one that answers a refresh carries the time the presented row was issued, and no nonce; beside
   them both carry the subject's profile, which prevails, without its `sub`.
   */
  ghost predicate IdTokenSays(w: World, s: State, job: nat, token: string, at: Time, c: Claims)
    requires job in s.delivered && s.delivered[job].g.root in s.log.logins
  {
    var login := s.log.logins[s.delivered[job].g.root];
    var profile := w.profile(login.code.subject);
    && Says(w, token, c) && at <= s.now && IdTokenFor(w, login, at, c)
    && (if job in s.log.started then
          s.log.started[job] == s.delivered[job].g.root && IdExtras(profile, login.query.nonce, login.at, c.extra)
        else
          job in s.log.presented && IdExtras(profile, "", s.log.presented[job].sess.issuedAt, c.extra))
  }

  lemma IdTokenOfResponse(w: World, s: State, job: nat)
    requires WellConfigured(w) && Reachable(w, s) && job in s.delivered && s.delivered[job].tokens.idToken.Some?
    ensures s.delivered[job].g.root in s.log.logins
    ensures exists at, c :: IdTokenSays(w, s, job, s.delivered[job].tokens.idToken.value, at, c)
  {
    EveryResponse(w, s, job);
    var g, tokens := s.delivered[job].g, s.delivered[job].tokens;
    assert JwtFor(w, s, g, tokens.idToken.value, true);
    var m :| SignedFor(w, s, g, m, true) && tokens.idToken.value == TokenOf(w, m.key, m.draft);
    SignedSays(w, s, g, m, true);
    assert IdTokenSays(w, s, job, tokens.idToken.value, m.draft.readAt, m.draft.claims);
  }

  // ---- access tokens ----

  /** `n` is this lifetime in seconds, the rest of a second dropped. */
  predicate InSeconds(n: int, ttl: Time) {
    && (ttl >= 0 ==> 0 <= n * 1_000_000_000 <= ttl < (n + 1) * 1_000_000_000)
    && (ttl <= 0 ==> (n - 1) * 1_000_000_000 < ttl <= n * 1_000_000_000 <= 0)
  }

  /** An opaque token whose row is on record for the login. */
  ghost predicate OpaqueAccess(w: World, s: State, root: string, tokens: TokenSet) {
    var key := HashToken(w.lib, tokens.access);
    key in s.log.origins && s.log.origins[key] == Origin(tokens.access, root) && InSeconds(tokens.expiresIn, w.cfg.statefulTTL)
  }

  /** A JWT that says whose it is, by whom, and for how long. */
  ghost predicate JwtSays(w: World, s: State, login: Login, tokens: TokenSet, at: Time, c: Claims) {
    && Says(w, tokens.access, c) && at <= s.now && InSeconds(tokens.expiresIn, w.cfg.statelessTTL)
    && c.issuer == w.cfg.issuer && c.subject == login.code.subject && c.audience == [login.query.clientID]
    && c.scope == login.query.scope && c.issuedAt == Unix(at) && c.expiresAt == Unix(at + w.cfg.statelessTTL)
    && c.notBefore == 0 && c.extra == map[]
  }

  ghost predicate StatelessAccess(w: World, s: State, login: Login, tokens: TokenSet) {
    exists at, c :: JwtSays(w, s, login, tokens, at, c)
  }

  lemma RowKind(w: World, s: State, g: Grant, tokens: TokenSet)
    requires RowAccess(w, s, g, tokens)
    ensures OpaqueAccess(w, s, g.root, tokens)
  {
    ExpiresInBound(w.cfg.statefulTTL);
    hide ExpiresIn, HashToken;
  }

  lemma JwtKind(w: World, s: State, g: Grant, login: Login, tokens: TokenSet)
    requires JsonRoundTrips(w.lib) && login.code.subject == g.subject && login.query.clientID == g.client.id && login.query.scope == g.scope
    requires JwtAccess(w, s, g, tokens)
    ensures StatelessAccess(w, s, login, tokens)
  {
    hide Says, TokenOf, Sound, SignedFor, JsonRoundTrips, InSeconds;
    var m :| SignedFor(w, s, g, m, false) && tokens.access == TokenOf(w, m.key, m.draft);
    SignedSays(w, s, g, m, false);
    assert InSeconds(tokens.expiresIn, w.cfg.statelessTTL) by { LifeInSeconds(w.cfg.statelessTTL); }
    assert !m.draft.isId by { NotId(w, s, g, m); }
    assert JwtSays(w, s, login, tokens, m.draft.readAt, m.draft.claims);
  }

  lemma NotId(w: World, s: State, g: Grant, m: Minted)
    requires SignedFor(w, s, g, m, false)
    ensures !m.draft.isId
  {
  }

  lemma LifeInSeconds(ttl: Time)
    ensures InSeconds(ExpiresIn(ttl), ttl)
  {
    ExpiresInBound(ttl);
    hide ExpiresIn;
  }

  /**
   Which access token a response carries: registered with the word "stateful", the client gets an opaque
   token with a row and the stateful lifetime; with "stateless" a JWT and the stateless lifetime; with any
   other word what the configured default is.
   */
  lemma AccessTokenOfResponse(w: World, s: State, job: nat)
    requires WellConfigured(w) && Reachable(w, s) && job in s.delivered
    ensures var root, tokens := s.delivered[job].g.root, s.delivered[job].tokens;
            && root in s.log.logins && s.log.logins[root].query.clientID in w.clients
            && (var login, client := s.log.logins[root], w.clients[s.log.logins[root].query.clientID];
                && (client.sessionMode == "stateful" ==> OpaqueAccess(w, s, root, tokens))
                && (client.sessionMode == "stateless" ==> StatelessAccess(w, s, login, tokens))
                && (client.sessionMode !in {"stateful", "stateless"} ==>
                      match w.cfg.defaultMode
                      case Stateful => OpaqueAccess(w, s, root, tokens)
                      case Stateless => StatelessAccess(w, s, login, tokens)
                      case Unknown(_) => false))
  {
    EveryResponse(w, s, job);
    var g, tokens := s.delivered[job].g, s.delivered[job].tokens;
    if RowAccess(w, s, g, tokens) { RowKind(w, s, g, tokens); }
    if JwtAccess(w, s, g, tokens) { JwtKind(w, s, g, s.log.logins[g.root], tokens); }
    assert w.clients[g.client.id] == g.client;
    hide OpaqueAccess, StatelessAccess, RowAccess, JwtAccess, IdFor, RefreshFor, FromCode, FromRefresh, RedemptionOk, Reachable;
  }
}
