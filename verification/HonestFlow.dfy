/**
 Honest requests succeed: in every reachable state, a valid login leads to a stored code, and a code
 presented in time by its own client, with the bound redirect URI and a matching verifier, like a live
 refresh token presented by its own client, has a run of its handler that ends in a response.
 */
module HonestFlow {
  import opened Wrappers
  import opened Base64Url
  import opened Sessions
  import opened Stores
  import opened Grants
  import opened Sidecar
  import opened SingleUse
  import opened Provenance
  import opened OpaqueTokens
  import opened HandlerRuns
  import Pkce

  /** Two tokens nobody has seen. */
  predicate FreshPair(s: State, q: seq<Byte>, r: seq<Byte>) {
    Encode(q) !in s.log.seen && Encode(r) !in s.log.seen && Encode(q) != Encode(r)
  }

  /** Left alone, with its draws and snapshots succeeding, a handler that issues tokens responds. */
  lemma IssuesAll(w: World, s: State, job: nat, g: Grant, q: seq<Byte>, r: seq<Byte>) returns (s': State)
    requires At(s, job, g, NOTHING_YET.(scope := g.scope), AtAccess) && !ModeFor(w.cfg, g.client).Unknown?
    requires ClockOk(w, s.now) && FreshPair(s, q, r)
    ensures Leads(w, s, s') && job in s'.delivered && s'.delivered[job].g == g && s'.log.started == s.log.started
  {
    var resp := NOTHING_YET.(scope := g.scope);
    hide ClockOk, Goes, Leads, Encode, HashToken, OpaqueSession, MessageOf, TokenOf, AccessDraft, IdDraft, Next, ModeFor, HasScope, AccessTTL,
      ExpiresIn;
    var s1 := AccessIssued(w, s, job, g, resp, Some(q), s.now, true, false);
    GoesFrame(w, s, s1);
    var s2 := IdIssued(w, s1, job, g, s1.jobs[job].resp, s.now);
    GoesFrame(w, s1, s2);
    var s3 := RefreshIssued(w, s2, job, g, s2.jobs[job].resp, s.now, Some(r), s.now, true, false);
    GoesFrame(w, s2, s3);
    s' := Responds(w, s3, job, g, s3.jobs[job].resp);
    LeadsOn(w, s, s1, s2);
    LeadsOn(w, s, s2, s3);
    LeadsOn(w, s, s3, s');
  }

  /** The request a code was issued for: in time, its own client, the bound URI, a verifier that matches. */
  predicate Honest(w: World, s: State, x: Exchange) {
    && x.code in s.codes && x.code != "" && AuthenticateClient(w.clients, x.credentials).Some?
    && (var ac, client := s.codes[x.code], AuthenticateClient(w.clients, x.credentials).value;
        && s.now <= ac.expiresAt && ac.clientID == client.id && ac.redirectURI == x.redirectURI
        && Pkce.Verify(w.lib, x.verifier, ac.codeChallenge) && !ModeFor(w.cfg, client).Unknown?)
  }

  /** Up to the tokens: the code is taken and the checks pass. */
  lemma HonestRedemption(w: World, s: State, job: nat, x: Exchange) returns (s': State, g: Grant)
    requires Honest(w, s, x) && job !in s.log.used
    ensures Leads(w, s, s') && At(s', job, g, NOTHING_YET.(scope := g.scope), AtAccess)
    ensures g.root == x.code && Some(g.client) == AuthenticateClient(w.clients, x.credentials)
    ensures g.scope == s.codes[x.code].scope && g.subject == s.codes[x.code].subject
    ensures s'.now == s.now && s'.log.seen == s.log.seen + {x.code} && s'.table == s.table && s'.disk == s.disk
    ensures job in s'.log.started && s'.log.started[job] == x.code && s'.log.used == s.log.used + {job}
  {
    hide AuthenticateClient, Leads, Pkce.Challenge, OtherJobs, ModeFor;
    var client, ac := AuthenticateClient(w.clients, x.credentials).value, s.codes[x.code];
    var s1 := TakesCode(w, s, job, x, client);
    s' := ChecksCode(w, s1, job, x, client, ac);
    g := Grant(client, ac.subject, ac.scope, ac.nonce, ac.authTime, x.code);
    LeadsOn(w, s, s1, s');
  }

  lemma ClockIsOk(w: World, s: State)
    requires WellConfigured(w) && Reachable(w, s)
    ensures ClockOk(w, s.now)
  {
    ReachableKept(w, s);
    hide ClockOk, Once, RowsNamed, LoginOk, RedeemedOk, CodeFrom, JobFrom, RowFrom, MintedFrom;
  }

  /** An honest exchange can always be answered: nothing the server has been through stands in its way. */
  lemma HonestExchange(w: World, s: State, job: nat, x: Exchange, q: seq<Byte>, r: seq<Byte>) returns (s': State)
    requires WellConfigured(w) && Reachable(w, s) && Honest(w, s, x) && job !in s.log.used
    requires FreshPair(s, q, r) && x.code !in {Encode(q), Encode(r)}
    ensures Leads(w, s, s') && job in s'.delivered && s'.delivered[job].g.root == x.code
    ensures job in s'.log.started && s'.log.started[job] == x.code
  {
    ClockIsOk(w, s);
    hide Reachable, WellConfigured, Honest, ClockOk, Leads, Encode, ModeFor, At;
    assert !ModeFor(w.cfg, AuthenticateClient(w.clients, x.credentials).value).Unknown? by { KnownMode(w, s, x); }
    var s1, g := HonestRedemption(w, s, job, x);
    s' := IssuesAll(w, s1, job, g, q, r);
    LeadsOn(w, s, s1, s');
  }

  lemma KnownMode(w: World, s: State, x: Exchange)
    requires Honest(w, s, x)
    ensures AuthenticateClient(w.clients, x.credentials).Some?
    ensures !ModeFor(w.cfg, AuthenticateClient(w.clients, x.credentials).value).Unknown?
  {
    hide AuthenticateClient, ModeFor, Pkce.Verify;
  }

  /** A live refresh token presented by its own client. */
  predicate HonestRefreshing(w: World, s: State, token: string, credentials: Credentials) {
    && token != "" && AuthenticateClient(w.clients, credentials).Some?
    && (var sess, client := ValidateOpaque(w.lib, s.table, token, s.now), AuthenticateClient(w.clients, credentials).value;
        sess.Some? && sess.value.clientID == client.id && !ModeFor(w.cfg, client).Unknown?)
  }

  lemma HonestRefresh(w: World, s: State, job: nat, token: string, credentials: Credentials, q: seq<Byte>, r: seq<Byte>)
    returns (s': State)
    requires WellConfigured(w) && Reachable(w, s) && HonestRefreshing(w, s, token, credentials) && job !in s.log.used
    requires FreshPair(s, q, r) && token !in {Encode(q), Encode(r)}
    ensures Leads(w, s, s') && job in s'.delivered && s'.delivered[job].g.root == RootOf(s, HashToken(w.lib, token))
  {
    ClockIsOk(w, s);
    hide Reachable, WellConfigured, AuthenticateClient, ValidateOpaque, HashToken, RootOf, ClockOk, Leads, Encode, ModeFor;
    var client, sess := AuthenticateClient(w.clients, credentials).value, ValidateOpaque(w.lib, s.table, token, s.now).value;
    var s1 := PresentsRefresh(w, s, job, token, credentials, client);
    var s2 := SpendSettled(w, s1, job, client, token, sess, s1.jobs[job].root, false);
    var g := Grant(client, sess.subject, sess.scope, "", sess.issuedAt, s1.jobs[job].root);
    s' := IssuesAll(w, s2, job, g, q, r);
    LeadsOn(w, s, s1, s2);
    LeadsOn(w, s, s2, s');
  }

  // ---- from the login on ----

  /** A valid request, right credentials, and the exchange that goes with them. */
  predicate HonestLogin(w: World, q: AuthRequest, username: string, password: string, x: Exchange) {
    && ValidateAuthRequest(w.clients, q).Ok? && w.authenticate(username, password).Some?
    && AuthenticateClient(w.clients, x.credentials) == Some(ValidateAuthRequest(w.clients, q).value)
    && x.redirectURI == q.redirectURI && Pkce.Verify(w.lib, x.verifier, q.codeChallenge)
    && !ModeFor(w.cfg, ValidateAuthRequest(w.clients, q).value).Unknown? && w.cfg.authCodeTTL >= 0
  }

  lemma LoginStores(w: World, s: State, q: AuthRequest, username: string, password: string, x: Exchange, random: seq<Byte>)
    returns (s': State)
    requires HonestLogin(w, q, username, password, x) && ClockOk(w, s.now)
    requires Encode(random) !in s.log.seen && Encode(random) != "" && x.code == Encode(random)
    ensures Leads(w, s, s') && Honest(w, s', x) && s'.now == s.now && s'.log.seen == s.log.seen + {x.code}
    ensures s'.log.used == s.log.used && s'.table == s.table && s'.disk == s.disk && s'.codes[x.code].scope == q.scope
  {
    var client, subject := ValidateAuthRequest(w.clients, q).value, w.authenticate(username, password).value;
    hide AuthenticateClient, ValidateAuthRequest, ModeFor, Pkce.Verify, Encode, ClockOk, Leads, Insert, UnexpiredCodes;
    var e := LogIn(q, username, password, random, s.now, s.now);
    s' := Step(w, s, e);
    LeadsStep(w, s, e);
    SuccessfulLogin(w, s, UnexpiredCodes(s.codes, s.now), e, client, subject);
  }
}
