/**
 The decisions of the authorization server: client authentication, authorization requests,
 code exchange checks, scopes, token lifetimes and ID token claims. Nothing here changes state.
 */
module Grants {
  import opened Wrappers
  import opened Clock
  import opened JwtClaims
  import opened Primitives
  import opened Sessions
  import opened Stores
  import Jwt
  import Pkce
  import Text

  datatype Client = Client(id: string, secret: string, public: bool, redirectURIs: seq<string>, sessionMode: string)

  type Registry = map<string, Client>

  datatype Config = Config(
    issuer: string, authCodeTTL: Time, refreshTTL: Time, statelessTTL: Time, statefulTTL: Time, defaultMode: Mode)

  /** Everything that stays fixed while the server runs. */
  datatype World = World(
    cfg: Config,
    clients: Registry,
    authenticate: (string, string) -> Option<string>,
    profile: string -> Object,
    lib: Library,
    gracePeriod: Time)

  // ---- clients ----

  /** The id and secret of a request, in the body or as HTTP Basic credentials. */
  datatype Credentials = Credentials(bodyID: string, bodySecret: string, basic: Option<(string, string)>)

  /** `authenticateClient`: None is `invalid_client`. */
  function AuthenticateClient(clients: Registry, c: Credentials): Option<Client> {
    var (id, secret) := if c.basic.Some? then c.basic.value else (c.bodyID, c.bodySecret);
    if id !in clients then None
    else if clients[id].public then Some(clients[id])
    else if secret != clients[id].secret then None
    else Some(clients[id])
  }

  /** The id a request shows: that of the Basic credentials if there are any, else the body's. */
  function ShownID(c: Credentials): string {
    match c.basic
    case Some(pair) => pair.0
    case None => c.bodyID
  }

  function ShownSecret(c: Credentials): string {
    match c.basic
    case Some(pair) => pair.1
    case None => c.bodySecret
  }

  /** The request shows the id of this registered client, which is public or has the secret shown. */
  predicate Proves(clients: Registry, c: Credentials, client: Client) {
    && ShownID(c) in clients && clients[ShownID(c)] == client
    && (client.public || client.secret == ShownSecret(c))
  }

  lemma AuthenticatesExactly(clients: Registry, c: Credentials, client: Client)
    ensures AuthenticateClient(clients, c) == Some(client) <==> Proves(clients, c, client)
  {
  }

  function ModeFor(cfg: Config, c: Client): Mode {
    if c.sessionMode == "stateful" then Stateful
    else if c.sessionMode == "stateless" then Stateless
    else cfg.defaultMode
  }

  function AccessTTL(cfg: Config, m: Mode): Time {
    if m == Stateful then cfg.statefulTTL else cfg.statelessTTL
  }

  // ---- authorization requests ----

  datatype AuthRequest = AuthRequest(
    clientID: string, redirectURI: string, responseType: string, scope: string,
    state: string, nonce: string, codeChallenge: string, codeChallengeMethod: string)

  datatype AuthError = UnknownClient | RedirectNotRegistered | UnsupportedResponseType | ChallengeMissing | MethodNotS256

  function ValidateAuthRequest(clients: Registry, q: AuthRequest): Result<Client, AuthError> {
    if q.clientID !in clients then Err(UnknownClient)
    else if q.redirectURI !in clients[q.clientID].redirectURIs then Err(RedirectNotRegistered)
    else if q.responseType != "code" then Err(UnsupportedResponseType)
    else if q.codeChallenge == "" then Err(ChallengeMissing)
    else if !Pkce.MethodAccepted(q.codeChallengeMethod) then Err(MethodNotS256)
    else Ok(clients[q.clientID])
  }

  /** What OAuth 2.1 wants of a request: a registered client, one of its redirect URIs, the code flow, an S256 challenge. */
  predicate ProperRequest(clients: Registry, q: AuthRequest) {
    && q.clientID in clients && q.redirectURI in clients[q.clientID].redirectURIs
    && q.responseType == "code" && q.codeChallenge != "" && q.codeChallengeMethod == "S256"
  }

  lemma AcceptsExactly(clients: Registry, q: AuthRequest)
    ensures ValidateAuthRequest(clients, q).Ok? <==> ProperRequest(clients, q)
    ensures ValidateAuthRequest(clients, q).Ok? ==> ValidateAuthRequest(clients, q).value == clients[q.clientID]
  {
  }

  /** Which refusal, as the first thing amiss: until client and redirect URI are known to be right, nothing else is reported. */
  lemma RefusesInOrder(clients: Registry, q: AuthRequest)
    requires !ProperRequest(clients, q)
    ensures var known := q.clientID in clients;
            var trusted := known && q.redirectURI in clients[q.clientID].redirectURIs;
            match ValidateAuthRequest(clients, q)
            case Err(UnknownClient) => !known
            case Err(RedirectNotRegistered) => known && !trusted
            case Err(UnsupportedResponseType) => trusted && q.responseType != "code"
            case Err(ChallengeMissing) => trusted && q.responseType == "code" && q.codeChallenge == ""
            case Err(MethodNotS256) => trusted && q.responseType == "code" && q.codeChallenge != "" && q.codeChallengeMethod != "S256"
            case Ok(_) => false
  {
  }

  // ---- authorization codes ----

  datatype AuthCode = AuthCode(
    clientID: string, redirectURI: string, subject: string, scope: string,
    codeChallenge: string, codeChallengeMethod: string, nonce: string, authTime: Time, expiresAt: Time)

  type Codes = map<string, AuthCode>

  function NewAuthCode(q: AuthRequest, client: Client, subject: string, authTime: Time, expiresAt: Time): AuthCode {
    AuthCode(client.id, q.redirectURI, subject, q.scope, q.codeChallenge, q.codeChallengeMethod, q.nonce, authTime, expiresAt)
  }

  function UnexpiredCodes(codes: Codes, now: Time): Codes {
    map c | c in codes && now <= codes[c].expiresAt :: codes[c]
  }

  datatype Exchange = Exchange(code: string, redirectURI: string, verifier: string, credentials: Credentials)

  datatype GrantError =
    | InvalidRequest | InvalidClient | UnknownCode | CodeExpired | WrongClient | WrongRedirect | BadVerifier

  /** The checks after the code has been taken from the table; None lets the exchange pass. */
  function CheckExchange(l: Library, ac: AuthCode, client: Client, x: Exchange, now: Time): Option<GrantError> {
    if now > ac.expiresAt then Some(CodeExpired)
    else if ac.clientID != client.id then Some(WrongClient)
    else if ac.redirectURI != x.redirectURI then Some(WrongRedirect)
    else if !Pkce.Verify(l, x.verifier, ac.codeChallenge) then Some(BadVerifier)
    else None
  }

  /** An exchange passes exactly in time, for the client and URI of the code, with the verifier of its challenge. */
  lemma ExchangePassesExactly(l: Library, ac: AuthCode, client: Client, x: Exchange, now: Time)
    ensures CheckExchange(l, ac, client, x, now) == None <==>
      && now <= ac.expiresAt && ac.clientID == client.id && ac.redirectURI == x.redirectURI && Pkce.Fits(l, x.verifier, ac.codeChallenge)
    ensures match CheckExchange(l, ac, client, x, now)
            case Some(CodeExpired) => now > ac.expiresAt
            case Some(WrongClient) => now <= ac.expiresAt && ac.clientID != client.id
            case Some(WrongRedirect) => now <= ac.expiresAt && ac.clientID == client.id && ac.redirectURI != x.redirectURI
            case Some(BadVerifier) => now <= ac.expiresAt && ac.clientID == client.id && ac.redirectURI == x.redirectURI
            case Some(_) => false
            case None => true
  {
    Pkce.VerifyExactly(l, x.verifier, ac.codeChallenge);
    hide Pkce.Verify, Pkce.Fits;
  }

  // ---- tokens ----

  predicate HasScope(scope: string, want: string) {
    want in Text.Fields(scope)
  }

  /** `int64(ttl.Seconds())`: truncated toward zero. */
  function ExpiresIn(ttl: Time): int {
    if ttl < 0 then -((-ttl) / SECOND) else ttl / SECOND
  }

  const ID_TOKEN_TTL: Time := 10 * MINUTE

  function WithoutSub(profile: Object): Object {
    map k | k in profile && k != "sub" :: profile[k]
  }

  /** The claims `mintIDToken` signs. */
  function IdClaims(cfg: Config, clientID: string, subject: string, nonce: string, authTime: Time, profile: Object, now: Time): Claims {
    Claims(cfg.issuer, subject, [clientID], Unix(now + ID_TOKEN_TTL), 0, Unix(now), "", "",
           map["auth_time" := Num(Unix(authTime))]
           + (if nonce == "" then map[] else map["nonce" := Str(nonce)])
           + WithoutSub(profile))
  }

  /** The further claims of an ID token: every profile entry but `sub`, and beside them the login's time and nonce. */
  ghost predicate IdExtras(profile: Object, nonce: string, authTime: Time, extra: Object) {
    && (forall k :: k in extra <==> (k in profile && k != "sub") || k == "auth_time" || (k == "nonce" && nonce != ""))
    && (forall k :: k in extra ==>
          extra[k] == if k in profile && k != "sub" then profile[k] else if k == "auth_time" then Num(Unix(authTime)) else Str(nonce))
  }

  lemma IdClaimsExtras(cfg: Config, clientID: string, subject: string, nonce: string, authTime: Time, profile: Object, now: Time)
    ensures IdExtras(profile, nonce, authTime, IdClaims(cfg, clientID, subject, nonce, authTime, profile, now).extra)
  {
  }

  /** Profile keys cannot be taken for registered claims, and profile numbers are float64 values. */
  predicate CleanProfile(profile: Object) {
    forall k :: k in profile && k != "sub" ==>
      RecogniseFold(k).None? && (profile[k].Num? ==> Representable(profile[k].n))
  }

  /** An instant whose seconds a float64 holds exactly. */
  predicate InRange(t: Time) {
    -EXACT <= Unix(t) <= EXACT
  }

  lemma OwnClaimNames()
    ensures RecogniseFold("auth_time").None? && RecogniseFold("nonce").None?
  {
    assert Fold("auth_time") == "auth_time" && Fold("nonce") == "nonce";
    forall n: Name ensures Key(n) != "auth_time" && Key(n) != "nonce" {
      assert |Key(n)| != |"auth_time"| && (|Key(n)| == |"nonce"| ==> Key(n)[0] != "nonce"[0]);
    }
  }

  /** ID token claims survive the trip through JSON. */
  lemma IdClaimsSound(cfg: Config, clientID: string, subject: string, nonce: string, authTime: Time, profile: Object, now: Time)
    requires CleanProfile(profile) && InRange(now) && InRange(now + ID_TOKEN_TTL) && InRange(authTime)
    ensures Jwt.Sound(IdClaims(cfg, clientID, subject, nonce, authTime, profile, now))
  {
    OwnClaimNames();
    FloatExact(Unix(authTime));
    UnflattenFlatten(IdClaims(cfg, clientID, subject, nonce, authTime, profile, now));
  }

  /** So do access token claims, which carry no extras. */
  lemma AccessClaimsSound(issuer: string, s: Session, id: string, now: Time, ttl: Time)
    requires s.extra == map[] && InRange(now) && InRange(now + ttl)
    ensures Jwt.Sound(SessionClaims(issuer, s, id, now, ttl))
  {
  }

  // ---- how long tokens are accepted ----

  /** Unless the expiry happens to be second zero, claims are live exactly while the expiry second has not passed. */
  lemma LiveWindow(c: Claims, at: Time, ttl: Time, now: Time)
    requires c.expiresAt == Unix(at + ttl) && c.notBefore == 0
    ensures now <= at + ttl ==> Jwt.Live(c, now)
    ensures c.expiresAt != 0 && at + ttl + SECOND <= now ==> !Jwt.Live(c, now)
    ensures c.expiresAt != 0 && Jwt.Live(c, now) ==> now < at + ttl + SECOND
  {
  }

  /** `expires_in` never promises more than the lifetime; a negative one is rounded toward zero as well. */
  lemma ExpiresInBound(ttl: Time)
    ensures ttl >= 0 ==> 0 <= ExpiresIn(ttl) * SECOND <= ttl < (ExpiresIn(ttl) + 1) * SECOND
    ensures ttl <= 0 ==> (ExpiresIn(ttl) - 1) * SECOND < ttl <= ExpiresIn(ttl) * SECOND <= 0
  {
  }
}
