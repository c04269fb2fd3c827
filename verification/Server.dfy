/**
 The authorization server as the object it is: the table of codes, the client registry and the
 stores behind it. Every handler, run without interference, is proved to be a run of the machine
 in `Sidecar`, answering what the machine delivers; so what is proved of the machine's runs holds
 of the handlers. Clock readings, random bytes and the luck of snapshots are parameters, and the
 machine's state is carried along as a ghost.
 */
module Server {
  import opened Wrappers
  import opened Clock
  import opened Base64Url
  import opened JwtClaims
  import opened Primitives
  import opened Jwt
  import opened KeyRing
  import opened Sessions
  import opened Stores
  import opened Grants
  import opened Sidecar
  import opened HandlerRuns
  import opened SessionStores
  import opened KeyManager
  import opened FileBackend
  import Pkce
  import Text

  // ---- clients ----

  class ClientRegistry {
    var clients: Registry

    constructor ()
      ensures clients == map[]
    {
      clients := map[];
    }

    /** Every client is filed under its own id. */
    predicate Filed()
      reads this
    {
      forall id :: id in clients ==> clients[id].id == id
    }

    /** A later registration replaces an earlier one of the same id and leaves every other alone. */
    method Register(c: Client)
      modifies this
      ensures clients == old(clients)[c.id := c]
      ensures old(Filed()) ==> Filed()
    {
      clients := clients[c.id := c];
    }

    /** A client that is found is the registered one and bears the id asked for; none is missed. */
    method Get(id: string) returns (c: Option<Client>)
      ensures c.None? <==> id !in clients
      ensures c.Some? ==> c.value == clients[id] && (Filed() ==> c.value.id == id)
    {
      c := if id in clients then Some(clients[id]) else None;
    }
  }

  method RedirectAllowed(c: Client, uri: string) returns (allowed: bool)
    ensures allowed <==> uri in c.redirectURIs
  {
    for i := 0 to |c.redirectURIs|
      invariant uri !in c.redirectURIs[..i]
    {
      if c.redirectURIs[i] == uri {
        return true;
      }
    }
    allowed := false;
  }

  /** `hasScope`, against the words of the scope string. */
  method AsksFor(scope: string, want: string) returns (asked: bool)
    ensures asked <==> HasScope(scope, want)
  {
    var words := Text.Fields(scope);
    for i := 0 to |words|
      invariant want !in words[..i]
    {
      if words[i] == want {
        return true;
      }
    }
    asked := false;
  }

  // ---- the environment of a request ----

  /** What a token request reads from the outside, in the order it reads it. */
  datatype Readings = Readings(
    check: Time,
    access: Time, accessRandom: Option<seq<Byte>>, accessPut: Time, accessFate: Fate,
    id: Time,
    refresh: Time, refreshRandom: Option<seq<Byte>>, refreshPut: Time, refreshFate: Fate)

  ghost predicate InOrder(w: World, now: Time, r: Readings) {
    && now <= r.check <= r.access <= r.accessPut <= r.id <= r.refresh <= r.refreshPut
    && ClockOk(w, r.check) && ClockOk(w, r.access) && ClockOk(w, r.accessPut)
    && ClockOk(w, r.id) && ClockOk(w, r.refresh) && ClockOk(w, r.refreshPut)
  }

  /** Random tokens are new. */
  ghost predicate Drawn(seen: set<string>, r: Readings) {
    && (r.accessRandom.Some? ==> Encode(r.accessRandom.value) !in seen)
    && (r.refreshRandom.Some? ==> Encode(r.refreshRandom.value) !in seen)
    && (r.accessRandom.Some? && r.refreshRandom.Some? ==> Encode(r.accessRandom.value) != Encode(r.refreshRandom.value))
  }

  /** The rows an access token and then a refresh token leave in the table. */
  function TableAfter(w: World, b: Backend, t: Table, k: Key, g: Grant, r: Readings): Table {
    var rows := AccessRows(w, t, g, r.accessRandom, r.access, r.accessPut);
    if AccessToken(w, k, g, r.accessRandom, r.access, Saved(b, r.accessFate)).None? then rows
    else RefreshRows(w, rows, g, r.refreshRandom, r.refresh, r.refreshPut)
  }

  /** What a restart would then load: the rows of the last snapshot renamed into place. */
  function DiskAfter(w: World, b: Backend, t: Table, disk: Table, k: Key, g: Grant, r: Readings): Table {
    var onDisk := AccessDisk(w, b, t, disk, g, r);
    if AccessToken(w, k, g, r.accessRandom, r.access, Saved(b, r.accessFate)).None? then onDisk
    else RefreshDisk(w, b, AccessRows(w, t, g, r.accessRandom, r.access, r.accessPut), onDisk, g, r)
  }

  function AccessDisk(w: World, b: Backend, t: Table, disk: Table, g: Grant, r: Readings): Table {
    if Renamed(b, ModeFor(w.cfg, g.client) == Stateful && r.accessRandom.Some?, r.accessFate)
    then AccessRows(w, t, g, r.accessRandom, r.access, r.accessPut) else disk
  }

  function RefreshDisk(w: World, b: Backend, t: Table, disk: Table, g: Grant, r: Readings): Table {
    if Renamed(b, HasScope(g.scope, "offline_access") && r.refreshRandom.Some?, r.refreshFate)
    then RefreshRows(w, t, g, r.refreshRandom, r.refresh, r.refreshPut) else disk
  }

  /** The body `issueTokenSet` answers with, or None where it ends in a server error. */
  function ResponseTo(w: World, b: Backend, k: Key, g: Grant, r: Readings): (response: Option<TokenSet>)
    ensures response.Some? <==> Unhindered(w, b, g, r)
  {
    hide Encode, TokenOf, AccessDraft, HasScope, ModeFor;
    var access := AccessToken(w, k, g, r.accessRandom, r.access, Saved(b, r.accessFate));
    if access.None? then None else WithOthers(w, b, k, g, access.value, r)
  }

  function WithOthers(w: World, b: Backend, k: Key, g: Grant, access: string, r: Readings): (response: Option<TokenSet>)
    ensures response.None? <==> HasScope(g.scope, "offline_access") && (r.refreshRandom.None? || !Saved(b, r.refreshFate))
  {
    hide Encode, HasScope, ExpiresIn, AccessTTL, ModeFor;
    var refresh := RefreshToken(g, r.refreshRandom, Saved(b, r.refreshFate));
    if HasScope(g.scope, "offline_access") && refresh.None? then None
    else Some(TokenSet(access, ExpiresIn(AccessTTL(w.cfg, ModeFor(w.cfg, g.client))), IdToken(w, k, g, r.id), refresh, g.scope))
  }

  function IdToken(w: World, k: Key, g: Grant, now: Time): Option<string> {
    if HasScope(g.scope, "openid") then Some(TokenOf(w, k, IdDraft(w, g, now))) else None
  }

  /** Nothing issuing needs fails: the mode is known, random bytes come, and the snapshots that must be taken are. */
  predicate Unhindered(w: World, b: Backend, g: Grant, r: Readings) {
    && !ModeFor(w.cfg, g.client).Unknown? && r.accessRandom.Some?
    && (ModeFor(w.cfg, g.client) == Stateful ==> Saved(b, r.accessFate))
    && (HasScope(g.scope, "offline_access") ==> r.refreshRandom.Some? && Saved(b, r.refreshFate))
  }

  function OrServerError(response: Option<TokenSet>): Result<TokenSet, TokenError> {
    if response.Some? then Ok(response.value) else Err(ServerError)
  }

  /** What a code that has been looked up answers: the first check it fails, or the tokens of its grant. */
  function ExchangeAnswer(w: World, b: Backend, k: Key, x: Exchange, client: Client, ac: AuthCode, r: Readings): Result<TokenSet, TokenError> {
    var problem := CheckExchange(w.lib, ac, client, x, r.check);
    if problem.Some? then Err(Refused(problem.value)) else OrServerError(ResponseTo(w, b, k, CodeGrant(client, ac, x.code), r))
  }

  function ExchangeRows(w: World, b: Backend, t: Table, k: Key, x: Exchange, client: Client, ac: AuthCode, r: Readings): Table {
    if CheckExchange(w.lib, ac, client, x, r.check).Some? then t else TableAfter(w, b, t, k, CodeGrant(client, ac, x.code), r)
  }

  function ExchangeDisk(w: World, b: Backend, t: Table, disk: Table, k: Key, x: Exchange, client: Client, ac: AuthCode, r: Readings): Table {
    if CheckExchange(w.lib, ac, client, x, r.check).Some? then disk else DiskAfter(w, b, t, disk, k, CodeGrant(client, ac, x.code), r)
  }

  /** The job has responded with these tokens, for a login that goes back to the code. */
  ghost predicate Answered(s: State, s': State, job: nat, tokens: TokenSet, code: string) {
    && job in s'.delivered && s'.delivered == s.delivered[job := s'.delivered[job]]
    && s'.delivered[job].tokens == tokens && s'.delivered[job].g.root == code
  }

  function CodeGrant(client: Client, ac: AuthCode, code: string): Grant {
    Grant(client, ac.subject, ac.scope, ac.nonce, ac.authTime, code)
  }

  /** The disk after a deletion and its snapshot, if it is renamed into place. */
  function SpentDisk(b: Backend, t: Table, disk: Table, key: string, fate: Fate): Table {
    if Renamed(b, key in t, fate) then t - {key} else disk
  }

  function RefreshGrant(client: Client, sess: Session, root: string): Grant {
    Grant(client, sess.subject, sess.scope, "", sess.issuedAt, root)
  }

  /** A row that is gone stays gone when tokens other than its own are issued. */
  lemma SpentStaysSpent(w: World, b: Backend, t: Table, k: Key, g: Grant, r: Readings, seen: set<string>, token: string)
    requires Drawn(seen, r) && HashToken(w.lib, token) !in t
    ensures HashInjective(w.lib) && token in seen ==> HashToken(w.lib, token) !in TableAfter(w, b, t, k, g, r)
  {
    hide Encode, HashToken, OpaqueSession, ModeFor, HasScope, AccessToken, HashInjective;
    if !HashInjective(w.lib) || token !in seen {
      return;
    }
    if r.accessRandom.Some? && HashToken(w.lib, Encode(r.accessRandom.value)) == HashToken(w.lib, token) {
      HashTokenInjective(w.lib, Encode(r.accessRandom.value), token);
    }
    if r.refreshRandom.Some? && HashToken(w.lib, Encode(r.refreshRandom.value)) == HashToken(w.lib, token) {
      HashTokenInjective(w.lib, Encode(r.refreshRandom.value), token);
    }
  }

  datatype LoginError = BadRequest(error: AuthError) | BadCredentials | NoCode

  datatype TokenError = Refused(error: GrantError) | UnknownToken | ServerError

  // ---- the server ----

  class Server {
    const w: World
    const clients: ClientRegistry
    const bridge: Bridge
    const refreshStore: OpaqueStore
    var codes: Codes

    constructor (w: World, clients: ClientRegistry, bridge: Bridge, refreshStore: OpaqueStore)
      ensures this.w == w && this.clients == clients && this.bridge == bridge && this.refreshStore == refreshStore
      ensures codes == map[]
    {
      this.w := w;
      this.clients := clients;
      this.bridge := bridge;
      this.refreshStore := refreshStore;
      codes := map[];
    }

    /** Put together as the daemon does: one table for refresh and stateful rows, the configured lifetimes. */
    ghost predicate Wired()
      reads clients, Footprint(bridge.stateful.backend)
    {
      && clients.clients == w.clients
      && bridge.stateful.backend == refreshStore.backend && Sane(bridge.stateful.backend)
      && bridge.stateless.lib == bridge.stateful.lib == refreshStore.lib == w.lib
      && bridge.stateless.issuer == w.cfg.issuer && bridge.stateless.ttl == w.cfg.statelessTTL
      && bridge.stateful.ttl == w.cfg.statefulTTL && refreshStore.ttl == w.cfg.refreshTTL
      && bridge.stateless.km.gracePeriod == w.gracePeriod
    }

    /** What the server holds is what the machine's state says. */
    ghost predicate Shows(s: State)
      reads this, bridge.stateless.notary, bridge.stateless.km, bridge.stateless.km.active, Footprint(bridge.stateful.backend)
    {
      && codes == s.codes && Rows(bridge.stateful.backend) == s.table && Disk(bridge.stateful.backend) == s.disk
      && bridge.stateless.km.Abstract() == s.ring && bridge.stateless.notary.signed == s.notary.Keys
    }

    // ---- decisions ----

    method Authenticate(c: Credentials) returns (client: Option<Client>)
      requires Wired()
      ensures client == AuthenticateClient(w.clients, c)
    {
      var id, secret := c.bodyID, c.bodySecret;
      if c.basic.Some? {
        id, secret := c.basic.value.0, c.basic.value.1;
      }
      var found := clients.Get(id);
      if found.None? {
        return None;
      }
      if found.value.public {
        return found;
      }
      if secret != found.value.secret {
        return None;
      }
      client := found;
    }

    method CheckAuthRequest(q: AuthRequest) returns (r: Result<Client, AuthError>)
      requires Wired()
      ensures r == ValidateAuthRequest(w.clients, q)
    {
      var client := clients.Get(q.clientID);
      if client.None? {
        return Err(UnknownClient);
      }
      var allowed := RedirectAllowed(client.value, q.redirectURI);
      if !allowed {
        return Err(RedirectNotRegistered);
      }
      if q.responseType != "code" {
        return Err(UnsupportedResponseType);
      }
      if q.codeChallenge == "" {
        return Err(ChallengeMissing);
      }
      if !Pkce.MethodAccepted(q.codeChallengeMethod) {
        return Err(MethodNotS256);
      }
      r := Ok(client.value);
    }

    // ---- logins ----

    method PruneExpiredCodes(now: Time)
      modifies this`codes
      ensures codes == UnexpiredCodes(old(codes), now)
      ensures forall c :: c in codes <==> c in old(codes) && now <= old(codes)[c].expiresAt
      ensures forall c :: c in codes ==> codes[c] == old(codes)[c]
    {
      ghost var before := codes;
      var todo := codes.Keys;
      while todo != {}
        invariant todo <= before.Keys
        invariant codes == map c | c in before && (c in todo || now <= before[c].expiresAt) :: before[c]
        decreases todo
      {
        var c :| c in todo;
        todo := todo - {c};
        if now > codes[c].expiresAt {
          codes := codes - {c};
        }
      }
    }

    /** `authorizeProcessLogin`: the machine's login step, or nothing. */
    method ProcessLogin(q: AuthRequest, username: string, password: string, random: Option<seq<Byte>>,
                        pruneClock: Time, authClock: Time, expiryClock: Time, ghost s: State)
      returns (r: Result<string, LoginError>)
      requires Wired() && Shows(s) && s.now == pruneClock
      modifies this`codes
      ensures random.Some? ==> Shows(Step(w, s, LogIn(q, username, password, random.value, authClock, expiryClock)))
      ensures r.Err? ==> Shows(s)
      ensures match r
              case Ok(code) => random.Some? && code == Encode(random.value) && code in codes
              case Err(BadRequest(e)) => ValidateAuthRequest(w.clients, q) == Err(e)
              case Err(BadCredentials) => ValidateAuthRequest(w.clients, q).Ok? && w.authenticate(username, password).None?
              case Err(NoCode) => random.None?
    {
      hide Step, Encode, ValidateAuthRequest, NewAuthCode, UnexpiredCodes, FormatRoundTrips, Consistent;
      ghost var e := LogIn(q, username, password, if random.Some? then random.value else [], authClock, expiryClock);
      var client := CheckAuthRequest(q);
      if client.Err? {
        LoginRefused(w, s, e);
        return Err(BadRequest(client.error));
      }
      var subject := w.authenticate(username, password);
      if subject.None? {
        LoginRefused(w, s, e);
        return Err(BadCredentials);
      }
      if random.None? {
        return Err(NoCode);
      }
      LogsIn(w, s, e, client.value, subject.value);
      var code := Encode(random.value);
      PruneExpiredCodes(pruneClock);
      codes := codes[code := NewAuthCode(q, client.value, subject.value, authClock, expiryClock + w.cfg.authCodeTTL)];
      r := Ok(code);
    }

    // ---- issuing tokens ----

    /** The access token, in the client's mode. */
    method IssueAccess(client: Client, subject: string, scope: string, r: Readings,
                       ghost s: State, ghost job: nat, ghost g: Grant, ghost resp: TokenSet)
      returns (token: Option<string>, ghost s': State)
      requires Wired() && bridge.stateless.km.Valid() && Shows(s) && At(s, job, g, resp, AtAccess)
      requires g.client == client && g.subject == subject && g.scope == scope
      requires s.now == r.access <= r.accessPut && ClockOk(w, r.accessPut) && Drawn(s.log.seen, r)
      modifies bridge.stateless.notary, Footprint(bridge.stateful.backend)
      ensures Wired() && bridge.stateless.km.Valid() && Shows(s')
      ensures Goes(w, s, s')
      ensures token == AccessToken(w, s.ring.active, g, r.accessRandom, r.access, Saved(bridge.stateful.backend, r.accessFate))
      ensures s'.table == AccessRows(w, s.table, g, r.accessRandom, r.access, r.accessPut)
      ensures s'.disk == AccessDisk(w, bridge.stateful.backend, s.table, s.disk, g, r)
      ensures token.None? ==> job !in s'.jobs
      ensures token.Some? ==>
        && At(s', job, g, WithAccess(w, g, resp, token.value), AtId) && s'.now <= r.accessPut
        && (r.refreshRandom.Some? ==> Encode(r.refreshRandom.value) !in s'.log.seen)
    {
      hide Wired, Manager.Valid, Sane, Rows, Disk, Encode, HashToken, OpaqueSession, WithAccess, ClockOk, Goes, Next, MessageOf, TokenOf,
        AccessDraft, At, Drawn, AccessToken, ModeFor, AccessRows, FormatRoundTrips, Consistent;
      DrawnParts(s.log.seen, r);
      ghost var stores := ModeFor(w.cfg, client) == Stateful && r.accessRandom.Some?;
      s' := AccessSettled(w, s, job, g, resp, r.accessRandom, r.accessPut, Saved(bridge.stateful.backend, r.accessFate),
                          Renamed(bridge.stateful.backend, stores, r.accessFate));
      GoesFrame(w, s, s');
      token := MintAccess(client, subject, scope, r, s, g);
    }

    /** The access token by itself, as the bridge creates it. */
    method MintAccess(client: Client, subject: string, scope: string, r: Readings, ghost s: State, ghost g: Grant)
      returns (token: Option<string>)
      requires Wired() && bridge.stateless.km.Valid() && s.ring == bridge.stateless.km.Abstract() && s.now == r.access
      requires g.client == client && g.subject == subject && g.scope == scope
      modifies bridge.stateless.notary, Footprint(bridge.stateful.backend)
      ensures Wired() && bridge.stateless.km.Valid()
      ensures var b := bridge.stateful.backend;
              var stores := ModeFor(w.cfg, client) == Stateful && r.accessRandom.Some?;
              && Rows(b) == AccessRows(w, old(Rows(b)), g, r.accessRandom, r.access, r.accessPut)
              && Disk(b) == (if Renamed(b, stores, r.accessFate) then Rows(b) else old(Disk(b)))
              && token == AccessToken(w, s.ring.active, g, r.accessRandom, r.access, Saved(b, r.accessFate))
      ensures bridge.stateless.notary.signed
              == old(bridge.stateless.notary.signed)
                 + if ModeFor(w.cfg, client) == Stateless && r.accessRandom.Some?
                   then {(s.ring.active.pair, MessageOf(w, s.ring.active, AccessDraft(w, g, s.now, r.accessRandom.value)))}
                   else {}
    {
      hide Manager.Valid, Sane, Rows, Disk, Encode, HashToken, OpaqueSession, Next, SessionClaims, SigningInput, SignToken, ModeFor,
        MessageOf, TokenOf, AccessDraft;
      assert GrantSession(g) == Session("", subject, client.id, scope, 0, 0, map[]);
      if r.accessRandom.Some? { AccessSpelled(w, g, s.ring.active, r.access, r.accessRandom.value); }
      var created := bridge.Create(ModeFor(w.cfg, client), Session("", subject, client.id, scope, 0, 0, map[]),
                                   r.accessRandom, r.access, r.accessPut, r.accessFate);
      token := if created.Ok? then Some(created.value) else None;
    }

    lemma DrawnParts(seen: set<string>, r: Readings)
      requires Drawn(seen, r)
      ensures r.accessRandom.Some? ==> Encode(r.accessRandom.value) !in seen
      ensures r.refreshRandom.Some? ==>
        Encode(r.refreshRandom.value) !in seen + (if r.accessRandom.Some? then {Encode(r.accessRandom.value)} else {})
    {
    }

    /** `mintIDToken`: the profile is copied over the claims entry by entry, its `sub` left out. */
    method MintIdToken(clientID: string, subject: string, nonce: string, authTime: Time, now: Time) returns (token: string)
      requires Wired() && bridge.stateless.km.Valid()
      modifies bridge.stateless.notary
      ensures var k := bridge.stateless.km.Abstract().active;
              var c := IdClaims(w.cfg, clientID, subject, nonce, authTime, w.profile(subject), now);
              && token == SignToken(w.lib, k.alg, k.Kid(), k.pair, c)
              && bridge.stateless.notary.signed
                 == old(bridge.stateless.notary.signed) + {(k.pair, SigningInput(w.lib, Header(AlgName(k.alg), "JWT", k.Kid()), c))}
    {
      var extra: Object := map["auth_time" := Num(Unix(authTime))];
      if nonce != "" {
        extra := extra["nonce" := Str(nonce)];
      }
      var profile := w.profile(subject);
      extra := WithProfile(extra, profile);
      var claims := Claims(w.cfg.issuer, subject, [clientID], Unix(now + ID_TOKEN_TTL), 0, Unix(now), "", "", extra);
      assert claims == IdClaims(w.cfg, clientID, subject, nonce, authTime, profile, now);
      hide IdClaims, SignToken, SigningInput;
      var k := bridge.stateless.km.ActiveSigner();
      token := bridge.stateless.notary.Sign(w.lib, k.alg, k.Kid(), k.pair, claims);
    }

    static method WithProfile(base: Object, profile: Object) returns (extra: Object)
      ensures extra == base + WithoutSub(profile)
    {
      extra := base;
      var todo := profile.Keys;
      while todo != {}
        invariant todo <= profile.Keys
        invariant extra == base + map k | k in profile && k !in todo && k != "sub" :: profile[k]
        decreases todo
      {
        var k :| k in todo;
        todo := todo - {k};
        if k != "sub" {
          extra := extra[k := profile[k]];
        }
      }
    }

    method IssueId(client: Client, subject: string, scope: string, nonce: string, authTime: Time, r: Readings,
                   ghost s: State, ghost job: nat, ghost g: Grant, ghost resp: TokenSet)
      returns (token: Option<string>, ghost s': State)
      requires Wired() && bridge.stateless.km.Valid() && Shows(s) && At(s, job, g, resp, AtId) && resp.idToken == None
      requires g.client == client && g.subject == subject && g.scope == scope && g.nonce == nonce && g.authTime == authTime
      requires s.now <= r.id && ClockOk(w, r.id)
      modifies bridge.stateless.notary
      ensures Wired() && bridge.stateless.km.Valid() && Shows(s') && Goes(w, s, s')
      ensures token == IdToken(w, s.ring.active, g, r.id) && At(s', job, g, resp.(idToken := token), AtRefresh)
      ensures s'.now <= r.id && s'.log.seen == s.log.seen && s'.table == s.table && s'.disk == s.disk
    {
      hide Manager.Valid, Goes, ClockOk, HasScope, IdClaims, SigningInput, SignToken, At, FormatRoundTrips, Consistent;
      s' := IdIssued(w, s, job, g, resp, r.id);
      GoesFrame(w, s, s');
      token := None;
      var asked := AsksFor(scope, "openid");
      if asked {
        var minted := MintIdToken(client.id, subject, nonce, authTime, r.id);
        token := Some(minted);
      }
    }

    method IssueRefresh(client: Client, subject: string, scope: string, r: Readings,
                        ghost s: State, ghost job: nat, ghost g: Grant, ghost resp: TokenSet)
      returns (ok: bool, token: Option<string>, ghost s': State)
      requires Wired() && bridge.stateless.km.Valid() && Shows(s) && At(s, job, g, resp, AtRefresh) && resp.refresh == None
      requires g.client == client && g.subject == subject && g.scope == scope
      requires s.now <= r.refresh <= r.refreshPut && ClockOk(w, r.refresh) && ClockOk(w, r.refreshPut)
      requires r.refreshRandom.Some? ==> Encode(r.refreshRandom.value) !in s.log.seen
      modifies Footprint(bridge.stateful.backend)
      ensures Wired() && bridge.stateless.km.Valid() && Shows(s') && Goes(w, s, s')
      ensures token == RefreshToken(g, r.refreshRandom, Saved(bridge.stateful.backend, r.refreshFate))
      ensures ok == (HasScope(scope, "offline_access") ==> token.Some?)
      ensures s'.table == RefreshRows(w, s.table, g, r.refreshRandom, r.refresh, r.refreshPut)
      ensures s'.disk == RefreshDisk(w, bridge.stateful.backend, s.table, s.disk, g, r)
      ensures if ok then At(s', job, g, resp.(refresh := token), Complete) else job !in s'.jobs
    {
      hide Wired, Manager.Valid, Sane, Rows, Disk, Goes, Leads, ClockOk, HasScope, Encode, HashToken, OpaqueSession, Next, At, ModeFor,
        RefreshRows, RefreshToken;
      ghost var stores := HasScope(scope, "offline_access") && r.refreshRandom.Some?;
      s' := RefreshSettled(w, s, job, g, resp, r.refresh, r.refreshRandom, r.refreshPut, Saved(bridge.stateful.backend, r.refreshFate),
                           Renamed(bridge.stateful.backend, stores, r.refreshFate));
      GoesFrame(w, s, s');
      ok, token := MintRefresh(client, subject, scope, r, g);
    }

    method MintRefresh(client: Client, subject: string, scope: string, r: Readings, ghost g: Grant)
      returns (ok: bool, token: Option<string>)
      requires Wired() && g.client == client && g.subject == subject && g.scope == scope
      modifies Footprint(bridge.stateful.backend)
      ensures Wired()
      ensures var b, random := bridge.stateful.backend, r.refreshRandom;
              && Rows(b) == RefreshRows(w, old(Rows(b)), g, random, r.refresh, r.refreshPut)
              && Disk(b) == (if Renamed(b, HasScope(scope, "offline_access") && random.Some?, r.refreshFate) then Rows(b) else old(Disk(b)))
              && token == RefreshToken(g, random, Saved(b, r.refreshFate))
              && ok == (HasScope(scope, "offline_access") ==> token.Some?)
    {
      hide Sane, Rows, Disk, HasScope, Encode, HashToken, OpaqueSession, Next;
      ok, token := true, None;
      var asked := AsksFor(scope, "offline_access");
      if asked {
        token := refreshStore.Create(Session("", subject, client.id, scope, 0, 0, map[]),
                                     r.refreshRandom, r.refresh, r.refreshPut, r.refreshFate);
        ok := token.Some?;
      }
    }

    /** `issueTokenSet` once it has the access token: the other two, as the scope asks, and the response. */
    method IssueOthers(access: string, client: Client, subject: string, scope: string, nonce: string, authTime: Time, r: Readings,
                       ghost s: State, ghost job: nat, ghost g: Grant)
      returns (response: Option<TokenSet>, ghost s': State)
      requires Wired() && bridge.stateless.km.Valid() && Shows(s)
      requires At(s, job, g, WithAccess(w, g, NOTHING_YET.(scope := scope), access), AtId)
      requires g.client == client && g.subject == subject && g.scope == scope && g.nonce == nonce && g.authTime == authTime
      requires s.now <= r.id <= r.refresh <= r.refreshPut && ClockOk(w, r.id) && ClockOk(w, r.refresh) && ClockOk(w, r.refreshPut)
      requires r.refreshRandom.Some? ==> Encode(r.refreshRandom.value) !in s.log.seen
      modifies bridge.stateless.notary, Footprint(bridge.stateful.backend)
      ensures Wired() && bridge.stateless.km.Valid() && Shows(s') && Leads(w, s, s')
      ensures job !in s'.jobs && s'.log.started == s.log.started
      ensures s'.delivered == if response.Some? then s.delivered[job := Response(g, response.value)] else s.delivered
      ensures response == WithOthers(w, bridge.stateful.backend, s.ring.active, g, access, r)
      ensures s'.table == RefreshRows(w, s.table, g, r.refreshRandom, r.refresh, r.refreshPut)
      ensures s'.disk == RefreshDisk(w, bridge.stateful.backend, s.table, s.disk, g, r)
    {
      hide Manager.Valid, Sane, Rows, Disk, ClockOk, Goes, Leads, Shows, Wired, At, HasScope, Encode, ExpiresIn, AccessTTL, ModeFor, Respond,
        RefreshRows, RefreshDisk, RefreshToken, IdToken;
      ghost var resp := WithAccess(w, g, NOTHING_YET.(scope := scope), access);
      response := None;
      var idToken, s1 := IssueId(client, subject, scope, nonce, authTime, r, s, job, g, resp);
      ghost var resp1 := resp.(idToken := idToken);
      var ok, refresh, s2 := IssueRefresh(client, subject, scope, r, s1, job, g, resp1);
      GoesFrame(w, s, s1);
      GoesOn(w, s, s1, s2);
      GoesFrame(w, s, s2);
      s' := s2;
      if ok {
        response := Some(TokenSet(access, ExpiresIn(AccessTTL(w.cfg, ModeFor(w.cfg, client))), idToken, refresh, scope));
        s' := Responds(w, s2, job, g, response.value);
        ShowsSame(s2, s');
        LeadsOn(w, s, s2, s');
      }
    }

    /** `issueTokenSet`: the handler's whole remaining run, ending in the response or in a server error. */
    method IssueTokenSet(client: Client, subject: string, scope: string, nonce: string, authTime: Time, r: Readings,
                         ghost s: State, ghost job: nat, ghost g: Grant)
      returns (response: Option<TokenSet>, ghost s': State)
      requires Wired() && bridge.stateless.km.Valid() && Shows(s) && job in s.jobs && s.jobs[job] == Begin(g)
      requires g.client == client && g.subject == subject && g.scope == scope && g.nonce == nonce && g.authTime == authTime
      requires s.now == r.check && InOrder(w, r.check, r) && Drawn(s.log.seen, r)
      modifies bridge.stateless.notary, Footprint(bridge.stateful.backend)
      ensures Wired() && bridge.stateless.km.Valid() && Shows(s') && Leads(w, s, s')
      ensures job !in s'.jobs && s'.log.started == s.log.started
      ensures s'.delivered == if response.Some? then s.delivered[job := Response(g, response.value)] else s.delivered
      ensures response == ResponseTo(w, bridge.stateful.backend, s.ring.active, g, r)
      ensures s'.table == TableAfter(w, bridge.stateful.backend, s.table, s.ring.active, g, r)
      ensures s'.disk == DiskAfter(w, bridge.stateful.backend, s.table, s.disk, s.ring.active, g, r)
    {
      ghost var resp := NOTHING_YET.(scope := scope);
      ghost var s0 := Waits(w, s, r.access);
      assert Shows(s0) && At(s0, job, g, resp, AtAccess);
      response := None;
      hide Manager.Valid, Sane, Rows, Disk, ClockOk, Goes, Leads, Shows, Wired, At, HasScope, Encode, ModeFor,
        AccessRows, RefreshRows, AccessDisk, RefreshDisk, AccessToken, WithOthers;
      var access, s1 := IssueAccess(client, subject, scope, r, s0, job, g, resp);
      GoesOn(w, s, s0, s1);
      GoesFrame(w, s, s1);
      s' := s1;
      if access.Some? {
        response, s' := IssueOthers(access.value, client, subject, scope, nonce, authTime, r, s1, job, g);
        LeadsOn(w, s, s1, s');
      }
    }

    lemma ShowsSame(s: State, s': State)
      requires Shows(s)
      requires s'.table == s.table && s'.disk == s.disk && s'.codes == s.codes && s'.ring == s.ring && s'.notary == s.notary
      ensures Shows(s')
    {
    }

    // ---- the token endpoint ----

    /** `tokenAuthorizationCode` after the lock: the checks on the code taken, in order, then the tokens. */
    method FinishExchange(x: Exchange, client: Client, ac: AuthCode, r: Readings, ghost s: State, ghost job: nat)
      returns (response: Result<TokenSet, TokenError>, ghost s': State)
      requires Wired() && bridge.stateless.km.Valid() && Shows(s)
      requires InOrder(w, s.now, r) && Drawn(s.log.seen, r) && job in s.jobs && s.jobs[job] == Looked(x, client, ac)
      modifies bridge.stateless.notary, Footprint(bridge.stateful.backend)
      ensures Wired() && bridge.stateless.km.Valid() && Shows(s') && Leads(w, s, s')
      ensures response.Err? ==> s'.delivered == s.delivered
      ensures response.Ok? ==> Answered(s, s', job, response.value, x.code) && job in s'.log.started && s'.log.started[job] == x.code
      ensures response == ExchangeAnswer(w, bridge.stateful.backend, s.ring.active, x, client, ac, r)
      ensures s'.table == ExchangeRows(w, bridge.stateful.backend, s.table, s.ring.active, x, client, ac, r)
      ensures s'.disk == ExchangeDisk(w, bridge.stateful.backend, s.table, s.disk, s.ring.active, x, client, ac, r)
    {
      hide Manager.Valid, Sane, Rows, Disk, ClockOk, Leads, Encode, Pkce.Verify, Begin, TableAfter, DiskAfter, ResponseTo;
      ghost var s1 := Waits(w, s, r.check);
      ghost var s2 := ChecksCode(w, s1, job, x, client, ac);
      LeadsOn(w, s, s1, s2);
      s' := s2;
      if r.check > ac.expiresAt {
        return Err(Refused(CodeExpired)), s2;
      }
      if ac.clientID != client.id {
        return Err(Refused(WrongClient)), s2;
      }
      if ac.redirectURI != x.redirectURI {
        return Err(Refused(WrongRedirect)), s2;
      }
      if !Pkce.Verify(w.lib, x.verifier, ac.codeChallenge) {
        return Err(Refused(BadVerifier)), s2;
      }
      ghost var g := CodeGrant(client, ac, x.code);
      var issued, s3 := IssueTokenSet(client, ac.subject, ac.scope, ac.nonce, ac.authTime, r, s2, job, g);
      LeadsOn(w, s, s2, s3);
      response, s' := OrServerError(issued), s3;
    }

    /** What comes before the lock. */
    method CheckParameters(x: Exchange) returns (r: Result<Client, GrantError>)
      requires Wired()
      ensures var client := AuthenticateClient(w.clients, x.credentials);
              r == if x.code == "" || x.verifier == "" then Err(InvalidRequest)
                   else if client.None? then Err(InvalidClient)
                   else Ok(client.value)
    {
      hide AuthenticateClient;
      if x.code == "" || x.verifier == "" {
        return Err(InvalidRequest);
      }
      var client := Authenticate(x.credentials);
      r := if client.None? then Err(InvalidClient) else Ok(client.value);
    }

    /** The lock section: whatever is stored under the code is taken out. */
    method TakeCode(code: string) returns (found: Option<AuthCode>)
      modifies this`codes
      ensures codes == old(codes) - {code}
      ensures found == if code in old(codes) then Some(old(codes)[code]) else None
    {
      found := if code in codes then Some(codes[code]) else None;
      codes := codes - {code};
    }

    /** From the lock on: the code is taken out, and whatever was stored under it is checked. */
    method ExchangeTaken(x: Exchange, client: Client, r: Readings, ghost s: State, ghost job: nat)
      returns (response: Result<TokenSet, TokenError>, ghost s': State)
      requires Wired() && bridge.stateless.km.Valid() && Shows(s)
      requires x.code != "" && x.verifier != "" && AuthenticateClient(w.clients, x.credentials) == Some(client)
      requires InOrder(w, s.now, r) && job !in s.log.used && Drawn(s.log.seen + {x.code}, r)
      modifies this`codes, bridge.stateless.notary, Footprint(bridge.stateful.backend)
      ensures Wired() && bridge.stateless.km.Valid() && Shows(s') && Leads(w, s, s')
      ensures response.Err? ==> s'.delivered == s.delivered
      ensures response.Ok? ==> Answered(s, s', job, response.value, x.code) && job in s'.log.started && s'.log.started[job] == x.code
      ensures codes == old(codes) - {x.code}
      ensures x.code !in old(codes) ==> response == Err(Refused(UnknownCode)) && s'.table == s.table && s'.disk == s.disk
      ensures x.code in old(codes) ==>
        var b, ac := bridge.stateful.backend, old(codes)[x.code];
        && response == ExchangeAnswer(w, b, s.ring.active, x, client, ac, r)
        && s'.table == ExchangeRows(w, b, s.table, s.ring.active, x, client, ac, r)
        && s'.disk == ExchangeDisk(w, b, s.table, s.disk, s.ring.active, x, client, ac, r)
    {
      hide Manager.Valid, Sane, Rows, Disk, AuthenticateClient, Leads, ClockOk, Encode, InOrder, Drawn, OtherJobs,
        ExchangeAnswer, ExchangeRows, ExchangeDisk;
      ghost var s1 := TakesCode(w, s, job, x, client);
      var found := TakeCode(x.code);
      if found.None? {
        return Err(Refused(UnknownCode)), s1;
      }
      response, s' := FinishExchange(x, client, found.value, r, s1, job);
      LeadsOn(w, s, s1, s');
    }

    /**
     `tokenAuthorizationCode`. The code is consumed exactly when the request carries its parameters
     and its client authenticates; the errors come in the order of the checks.
     */
    method ExchangeCode(x: Exchange, r: Readings, ghost s: State, ghost job: nat)
      returns (response: Result<TokenSet, TokenError>, ghost s': State)
      requires Wired() && bridge.stateless.km.Valid() && Shows(s)
      requires InOrder(w, s.now, r) && job !in s.log.used && Drawn(s.log.seen + {x.code}, r)
      modifies this`codes, bridge.stateless.notary, Footprint(bridge.stateful.backend)
      ensures Wired() && bridge.stateless.km.Valid() && Shows(s') && Leads(w, s, s')
      ensures response.Err? ==> s'.delivered == s.delivered
      ensures response.Ok? ==> Answered(s, s', job, response.value, x.code) && job in s'.log.started && s'.log.started[job] == x.code
      ensures var client := AuthenticateClient(w.clients, x.credentials);
              if x.code == "" || x.verifier == "" then response == Err(Refused(InvalidRequest)) && codes == old(codes) && s' == s
              else if client.None? then response == Err(Refused(InvalidClient)) && codes == old(codes) && s' == s
              else
                && codes == old(codes) - {x.code}
                && (if x.code !in old(codes) then response == Err(Refused(UnknownCode)) && s'.table == s.table && s'.disk == s.disk
                    else
                      var b, ac := bridge.stateful.backend, old(codes)[x.code];
                      && response == ExchangeAnswer(w, b, s.ring.active, x, client.value, ac, r)
                      && s'.table == ExchangeRows(w, b, s.table, s.ring.active, x, client.value, ac, r)
                      && s'.disk == ExchangeDisk(w, b, s.table, s.disk, s.ring.active, x, client.value, ac, r))
    {
      hide Manager.Valid, Sane, Rows, Disk, AuthenticateClient, Leads, ClockOk, Encode, InOrder, Drawn, Answered,
        ExchangeAnswer, ExchangeRows, ExchangeDisk;
      LeadsNowhere(w, s);
      var client := CheckParameters(x);
      if client.Err? {
        return Err(Refused(client.error)), s;
      }
      response, s' := ExchangeTaken(x, client.value, r, s, job);
    }

    /** The presented token's row deleted, whatever becomes of the snapshot; the handler goes on to issue. */
    method SpendToken(token: string, client: Client, sess: Session, revokeFate: Fate, ghost s: State, ghost job: nat, ghost root: string)
      returns (ghost s': State)
      requires Wired() && bridge.stateless.km.Valid() && Shows(s) && job in s.jobs && s.jobs[job] == Validated(client, token, sess, root)
      modifies Footprint(bridge.stateful.backend)
      ensures Wired() && bridge.stateless.km.Valid() && Shows(s') && Leads(w, s, s')
      ensures s'.now == s.now && s'.ring == s.ring && s'.log == s.log && s'.delivered == s.delivered
      ensures job in s'.jobs && s'.jobs[job] == Begin(RefreshGrant(client, sess, root))
      ensures s'.table == s.table - {HashToken(w.lib, token)}
      ensures s'.disk == SpentDisk(bridge.stateful.backend, s.table, s.disk, HashToken(w.lib, token), revokeFate)
    {
      hide Manager.Valid, Sane, Rows, Disk, Leads, HashToken, Begin;
      s' := SpendSettled(w, s, job, client, token, sess, root, Renamed(refreshStore.backend, HashToken(w.lib, token) in s.table, revokeFate));
      var _ := refreshStore.Revoke(token, revokeFate);
    }

    /** `tokenRefresh` from the revocation on: the token is spent, whatever comes after. */
    method FinishRefresh(token: string, client: Client, sess: Session, r: Readings, revokeFate: Fate,
                         ghost s: State, ghost job: nat, ghost root: string)
      returns (response: Result<TokenSet, TokenError>, ghost s': State)
      requires Wired() && bridge.stateless.km.Valid() && Shows(s) && s.now == r.check
      requires InOrder(w, r.check, r) && Drawn(s.log.seen, r) && job in s.jobs && s.jobs[job] == Validated(client, token, sess, root)
      modifies bridge.stateless.notary, Footprint(bridge.stateful.backend)
      ensures Wired() && bridge.stateless.km.Valid() && Shows(s') && Leads(w, s, s')
      ensures var backend, rows, g := bridge.stateful.backend, s.table - {HashToken(w.lib, token)}, RefreshGrant(client, sess, root);
              && response == OrServerError(ResponseTo(w, backend, s.ring.active, g, r))
              && s'.table == TableAfter(w, backend, rows, s.ring.active, g, r)
              && s'.disk == DiskAfter(w, backend, rows, SpentDisk(backend, s.table, s.disk, HashToken(w.lib, token), revokeFate),
                                      s.ring.active, g, r)
      ensures HashInjective(w.lib) && token in s.log.seen ==> HashToken(w.lib, token) !in s'.table
      ensures response.Err? ==> s'.delivered == s.delivered
      ensures response.Ok? ==> Answered(s, s', job, response.value, root)
    {
      hide Manager.Valid, Sane, Rows, Disk, Leads, ClockOk, Encode, HashToken, Begin, InOrder, Drawn, TableAfter, DiskAfter, ResponseTo,
        HashInjective, SpentDisk;
      ghost var s1 := SpendToken(token, client, sess, revokeFate, s, job, root);
      ghost var g := RefreshGrant(client, sess, root);
      var issued, s2 := IssueTokenSet(client, sess.subject, sess.scope, "", sess.issuedAt, r, s1, job, g);
      SpentStaysSpent(w, bridge.stateful.backend, s1.table, s.ring.active, g, r, s.log.seen, token);
      LeadsOn(w, s, s1, s2);
      response, s' := OrServerError(issued), s2;
    }

    /**
     `tokenRefresh`: validate, compare the client, revoke, reissue. A refused request leaves the
     table alone; any other has spent the token whatever comes after.
     */
    method Refresh(token: string, credentials: Credentials, r: Readings, revokeFate: Fate, ghost s: State, ghost job: nat)
      returns (response: Result<TokenSet, TokenError>, ghost s': State)
      requires Wired() && bridge.stateless.km.Valid() && Shows(s)
      requires InOrder(w, s.now, r) && job !in s.log.used && Drawn(s.log.seen + {token}, r)
      modifies bridge.stateless.notary, Footprint(bridge.stateful.backend)
      ensures Wired() && bridge.stateless.km.Valid() && Shows(s') && Leads(w, s, s')
      ensures response.Err? ==> s'.delivered == s.delivered
      ensures response.Ok? ==> Answered(s, s', job, response.value, RootOf(s, HashToken(w.lib, token)))
      ensures var client := AuthenticateClient(w.clients, credentials);
              if token == "" then response == Err(Refused(InvalidRequest)) && s' == s
              else if client.None? then response == Err(Refused(InvalidClient)) && s' == s
              else
                var sess := ValidateOpaque(w.lib, s.table, token, r.check);
                if sess.None? then response == Err(UnknownToken) && s'.table == s.table && s'.disk == s.disk
                else if sess.value.clientID != client.value.id then response == Err(Refused(WrongClient)) && s'.table == s.table && s'.disk == s.disk
                else
                  var backend, key := bridge.stateful.backend, HashToken(w.lib, token);
                  var g := RefreshGrant(client.value, sess.value, RootOf(s, key));
                  && response == OrServerError(ResponseTo(w, backend, s.ring.active, g, r))
                  && s'.table == TableAfter(w, backend, s.table - {key}, s.ring.active, g, r)
                  && s'.disk == DiskAfter(w, backend, s.table - {key}, SpentDisk(backend, s.table, s.disk, key, revokeFate), s.ring.active, g, r)
                  && (HashInjective(w.lib) ==> key !in s'.table)
    {
      hide Manager.Valid, Sane, Rows, Disk, AuthenticateClient, Leads, ClockOk, Encode, ValidateOpaque, HashToken, RootOf, Begin;
      LeadsNowhere(w, s);
      if token == "" {
        return Err(Refused(InvalidRequest)), s;
      }
      var client := Authenticate(credentials);
      if client.None? {
        return Err(Refused(InvalidClient)), s;
      }
      ghost var s1 := Waits(w, s, r.check);
      RootKept(s, r.check, HashToken(w.lib, token));
      var sess := refreshStore.Validate(token, r.check);
      ghost var s2 := PresentsRefresh(w, s1, job, token, credentials, client.value);
      LeadsOn(w, s, s1, s2);
      if sess.None? {
        return Err(UnknownToken), s2;
      }
      if sess.value.clientID != client.value.id {
        return Err(Refused(WrongClient)), s2;
      }
      response, s' := FinishRefresh(token, client.value, sess.value, r, revokeFate, s2, job, s2.jobs[job].root);
      LeadsOn(w, s, s2, s');
    }

    // ---- revocation ----

    /**
     `handleRevoke`: any authenticated client may revoke any token; both stores share the table, so
     the second deletion finds nothing. Whether the snapshot was saved is not reported.
     */
    method Revoke(token: string, credentials: Credentials, first: Fate, second: Fate, ghost s: State)
      returns (r: Result<(), GrantError>, ghost s': State)
      requires Wired() && Shows(s)
      modifies Footprint(bridge.stateful.backend)
      ensures Wired() && Shows(s') && Leads(w, s, s')
      ensures r == (if token == "" then Err(InvalidRequest)
                    else if AuthenticateClient(w.clients, credentials).None? then Err(InvalidClient) else Ok(()))
      ensures s'.table == if r.Ok? then s.table - {HashToken(w.lib, token)} else s.table
      ensures s'.disk == if r.Ok? && HashToken(w.lib, token) in s.table && Renamed(bridge.stateful.backend, true, first) then s'.table else s.disk
    {
      hide Manager.Valid, Sane, Rows, Disk, AuthenticateClient, HashToken, Leads;
      LeadsNowhere(w, s);
      if token == "" {
        return Err(InvalidRequest), s;
      }
      var client := Authenticate(credentials);
      if client.None? {
        return Err(InvalidClient), s;
      }
      s' := RevokeSettled(w, s, token, credentials, Renamed(bridge.stateful.backend, HashToken(w.lib, token) in s.table, first));
      RevokeRow(token, first, second);
      r := Ok(());
    }

    /** Both deletions: the row is gone after the first, and only that one takes a snapshot. */
    method RevokeRow(token: string, first: Fate, second: Fate)
      requires Wired()
      modifies Footprint(bridge.stateful.backend)
      ensures Wired()
      ensures var b := bridge.stateful.backend;
              && Rows(b) == old(Rows(b)) - {HashToken(w.lib, token)}
              && Disk(b) == (if Renamed(b, HashToken(w.lib, token) in old(Rows(b)), first) then Rows(b) else old(Disk(b)))
    {
      hide Sane, Rows, Disk, HashToken;
      var _ := refreshStore.Revoke(token, first);
      var _ := bridge.Revoke(Stateful, token, second);
    }
  }

  // ---- start-up ----

  /**
   The daemon's wiring. A server started on an empty table shows the machine's initial state; one
   started on a loaded snapshot shows what a restart makes of any state that left that snapshot.
   */
  method Start(w: World, clients: ClientRegistry, alg: Algorithm, kidClock: Time, createdAt: Time, material: Option<KeyPair>, b: Backend)
    returns (server: Option<Server>, ghost ring: Ring)
    requires clients.clients == w.clients && Sane(b) && Rows(b) == Disk(b)
    ensures server.Some? <==> alg.Supported? && material.Some?
    ensures server.Some? ==>
      && fresh(server.value) && server.value.w == w && server.value.Wired() && server.value.bridge.stateless.km.Valid()
      && FreshRing(ring) && server.value.bridge.stateless.km.Abstract() == ring
      && (forall before: State :: before.disk == Rows(b) ==> server.value.Shows(Restarted(before, ring)))
      && (forall s0: State :: Init(w, s0) && s0.ring == ring && Rows(b) == map[] ==> server.value.Shows(s0))
  {
    ring := Ring(Key(RS256, 1, kidClock, createdAt, KeyPair(0)), [], 1);
    var km := Manager.NewManager(alg, w.gracePeriod, kidClock, createdAt, material);
    if km.None? {
      return None, ring;
    }
    ring := km.value.Abstract();
    var notary := new Notary();
    var stateless := new JWTStore(w.lib, km.value, notary, w.cfg.issuer, w.cfg.statelessTTL);
    var stateful := new OpaqueStore(w.lib, b, w.cfg.statefulTTL);
    var bridge := new Bridge(stateless, stateful);
    var refreshStore := new OpaqueStore(w.lib, b, w.cfg.refreshTTL);
    var started := new Server(w, clients, bridge, refreshStore);
    server := Some(started);
  }
}
