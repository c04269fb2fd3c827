/**
 The running server as one state machine. Request handlers are jobs that advance one atomic step
 at a time, a step being one clock reading, one lock section or one backend call, so that jobs,
 key rotation, pruning, sweeping and revocation interleave freely. Some fields record history
 the server itself does not keep; no step's effect on the other fields depends on them.
 */
module Sidecar {
  import opened Wrappers
  import opened Clock
  import opened Base64Url
  import opened JwtClaims
  import opened Primitives
  import opened Jwt
  import opened KeyRing
  import opened Sessions
  import opened Stores
  import opened Grants

  // ---- jobs ----

  /** What is being issued and to whom; `root` is the code of the login it goes back to. */
  datatype Grant = Grant(client: Client, subject: string, scope: string, nonce: string, authTime: Time, root: string)

  datatype TokenSet = TokenSet(access: string, expiresIn: int, idToken: Option<string>, refresh: Option<string>, scope: string)

  /** A response with the grant it answers. */
  datatype Response = Response(g: Grant, tokens: TokenSet)

  /** A JWT in the making: the clock has been read and the claims are fixed. */
  datatype Draft = Draft(claims: Claims, readAt: Time, life: Time, isId: bool)

  /** Where `issueTokenSet` stands. */
  datatype Stage =
    | AtAccess                                       // access token next
    | AtId                                           // ID token next, if the scope asks for one
    | AtRefresh                                      // refresh token next, if the scope asks for one
    | Drafted(draft: Draft)                          // clock read, signer next
    | Holding(draft: Draft, key: Key)                // signer fetched, signature next
    | Timed(at: Time, ttl: Time, isRefresh: bool)    // clock read, table row next
    | Complete                                       // response next

  datatype Job =
    | Looked(x: Exchange, client: Client, ac: AuthCode)                     // code taken, checks next
    | Validated(client: Client, token: string, sess: Session, root: string) // refresh token validated, revocation next
    | Issuing(g: Grant, resp: TokenSet, stage: Stage)

  // ---- history ----

  /** The code, what was asked for and by whom, and the two readings of the clock. */
  datatype Login = Login(code: AuthCode, query: AuthRequest, username: string, password: string, at: Time, storedAt: Time)

  datatype Redemption = Redemption(
    job: nat, client: Client, redirectURI: string, verifier: string, credentials: Credentials, at: Time)

  /** A refresh token that validated, with the session of its row. */
  datatype Presentation = Presentation(token: string, credentials: Credentials, client: Client, sess: Session, at: Time)

  /** One signature made: with which key, over which draft, for whom. */
  datatype Minted = Minted(key: Key, draft: Draft, g: Grant)

  /** Where a table row came from. */
  datatype Origin = Origin(token: string, root: string)

  datatype State = State(
    now: Time,
    ring: Ring,
    table: Table,
    disk: Table,                            // what a restart would load: the table of the last snapshot completed
    codes: Codes,
    jobs: map<nat, Job>,
    notary: map<(KeyPair, string), Minted>, // every (key, message) pair signed so far
    delivered: map<nat, Response>,          // responses sent
    log: History)

  /** What the server does not remember but the theorems speak of. */
  datatype History = History(
    logins: map<string, Login>,             // by code
    looked: set<string>,                    // codes some authenticated exchange has looked up
    taken: map<string, nat>,                // by code: the job that took it from the table
    redeemed: map<string, Redemption>,      // by code: the exchange that passed every check
    started: map<nat, string>,              // by job: the code it redeemed
    presented: map<nat, Presentation>,      // by job: the refresh token it goes on with
    origins: map<string, Origin>,           // by table key, ever written
    seen: set<string>,                      // codes and opaque tokens drawn or presented
    used: set<nat>,                         // job numbers given out
    minted: set<Minted>)                    // signatures ever made, before restarts too

  function Signatures(s: State): Signed {
    s.notary.Keys
  }

  /** `Bridge.ValidateAny` in a state. */
  function Accepted(w: World, s: State, token: string): Option<(Session, Mode)> {
    ValidateAny(w.lib, Signatures(s), s.table, s.ring, token, s.now)
  }

  // ---- events ----

  /**
   An event that can change the table says whether the snapshot it then takes is renamed into place;
   with the memory backend none ever is.
   */
  datatype Event =
    | Tick(to: Time)
    | LogIn(query: AuthRequest, username: string, password: string, random: seq<Byte>, authClock: Time, expiryClock: Time)
    | BeginExchange(job: nat, x: Exchange)
    | BeginRefresh(job: nat, token: string, credentials: Credentials)
    | Advance(job: nat, random: seq<Byte>, saved: bool)
    | Fail(job: nat)                          // a handler stops with a server error
    | Revoke(token: string, credentials: Credentials, saved: bool)
    | RevokeSubject(subject: string, saved: bool)
    | Present(token: string)                  // somebody asks whether a token is valid
    | SweepRows(asOf: Time, saved: bool)
    | PruneCodes
    | RotateKey(kidClock: Time, createdAt: Time, material: Option<KeyPair>)
    | PruneKeys
    | Restart(ring: Ring)                     // the process stops and starts again from the disk

  /** The handler's next step hands out the token it has drawn. */
  predicate DrawsToken(s: State, job: nat) {
    job in s.jobs && s.jobs[job].Issuing? && s.jobs[job].stage.Timed?
  }

  /** Every instant the server computes from this clock reading is one a float64 holds. */
  predicate ClockOk(w: World, t: Time) {
    InRange(t) && InRange(t + w.cfg.statelessTTL) && InRange(t + ID_TOKEN_TTL)
  }

  /** The ring a new manager starts with. */
  predicate FreshRing(r: Ring) {
    r.retired == [] && r.active.number == 1 == r.made
  }

  /** What the environment guarantees: time does not run back, random tokens are new, job numbers are not reused. */
  predicate Allowed(w: World, s: State, e: Event) {
    match e
    case Tick(to) => s.now <= to && ClockOk(w, to)
    case LogIn(_, _, _, random, authClock, expiryClock) =>
      && Encode(random) !in s.log.seen && s.now <= authClock <= expiryClock
      && ClockOk(w, authClock) && ClockOk(w, expiryClock)
    case BeginExchange(job, _) => job !in s.log.used
    case BeginRefresh(job, _, _) => job !in s.log.used
    case Advance(job, random, _) => DrawsToken(s, job) ==> Encode(random) !in s.log.seen
    case SweepRows(asOf, _) => asOf <= s.now
    case Restart(ring) => FreshRing(ring)
    case _ => true
  }

  // ---- steps ----

  function SweepCodes(s: State): State {
    s.(codes := UnexpiredCodes(s.codes, s.now))
  }

  /** The code added to `kept`; the clock is read for `authTime` and again for the expiry. */
  function Insert(w: World, s: State, kept: Codes, e: Event): State
    requires e.LogIn?
  {
    var client := ValidateAuthRequest(w.clients, e.query);
    if client.Err? then s
    else
      var subject := w.authenticate(e.username, e.password);
      if subject.None? then s
      else
        var code := Encode(e.random);
        var ac := NewAuthCode(e.query, client.value, subject.value, e.authClock, e.expiryClock + w.cfg.authCodeTTL);
        s.(codes := kept[code := ac],
           now := e.expiryClock,
           log := s.log.(logins := s.log.logins[code := Login(ac, e.query, e.username, e.password, e.authClock, e.expiryClock)],
                         seen := s.log.seen + {code}))
  }

  /** A login that succeeds prunes expired codes under the lock before it inserts its own. */
  function InsertCode(w: World, s: State, e: Event): State
    requires e.LogIn?
  {
    Insert(w, s, UnexpiredCodes(s.codes, s.now), e)
  }

  /** The code is looked up and, if there, taken under the lock; a handler goes on with it. */
  function Take(s: State, job: nat, x: Exchange, client: Client): State {
    var log := s.log.(looked := s.log.looked + {x.code}, seen := s.log.seen + {x.code}, used := s.log.used + {job});
    if x.code in s.codes then
      s.(codes := s.codes - {x.code},
         jobs := s.jobs[job := Looked(x, client, s.codes[x.code])],
         log := log.(taken := s.log.taken[x.code := job]))
    else s.(log := log)
  }

  /** Parameters and client are checked before the code is looked up. */
  function TakeCode(w: World, s: State, job: nat, x: Exchange): State {
    var client := AuthenticateClient(w.clients, x.credentials);
    if x.code == "" || x.verifier == "" || client.None? then s else Take(s, job, x, client.value)
  }

  function RootOf(s: State, key: string): string {
    if key in s.log.origins then s.log.origins[key].root else ""
  }

  /** The presented refresh token is validated and its client compared; a handler goes on with the session. */
  function EnterRefresh(w: World, s: State, job: nat, token: string, credentials: Credentials, client: Client): State {
    var sess := ValidateOpaque(w.lib, s.table, token, s.now);
    var log := s.log.(seen := s.log.seen + {token});
    if sess.None? || sess.value.clientID != client.id then s.(log := log)
    else
      s.(jobs := s.jobs[job := Validated(client, token, sess.value, RootOf(s, HashToken(w.lib, token)))],
         log := log.(used := s.log.used + {job},
                     presented := s.log.presented[job := Presentation(token, credentials, client, sess.value, s.now)]))
  }

  /** Parameters and client are checked before the token is looked up. */
  function CheckRefresh(w: World, s: State, job: nat, token: string, credentials: Credentials): State {
    var client := AuthenticateClient(w.clients, credentials);
    if token == "" || client.None? then s else EnterRefresh(w, s, job, token, credentials, client.value)
  }

  const NOTHING_YET: TokenSet := TokenSet("", 0, None, None, "")

  function Begin(g: Grant): Job {
    Issuing(g, NOTHING_YET.(scope := g.scope), AtAccess)
  }

  function Redeem(w: World, s: State, job: nat, x: Exchange, client: Client, ac: AuthCode): State {
    if CheckExchange(w.lib, ac, client, x, s.now).Some? then Drop(s, job)
    else
      s.(jobs := s.jobs[job := Begin(Grant(client, ac.subject, ac.scope, ac.nonce, ac.authTime, x.code))],
         log := s.log.(redeemed := s.log.redeemed[x.code := Redemption(job, client, x.redirectURI, x.verifier, x.credentials, s.now)],
                       started := s.log.started[job := x.code]))
  }

  function RevokeForRefresh(w: World, s: State, job: nat, client: Client, token: string, sess: Session, root: string): State {
    s.(table := s.table - {HashToken(w.lib, token)},
       jobs := s.jobs[job := Begin(Grant(client, sess.subject, sess.scope, "", sess.issuedAt, root))])
  }

  function GrantSession(g: Grant): Session {
    Session("", g.subject, g.client.id, g.scope, 0, 0, map[])
  }

  function AccessDraft(w: World, g: Grant, now: Time, random: seq<Byte>): Draft {
    Draft(SessionClaims(w.cfg.issuer, GrantSession(g), Encode(random), now, w.cfg.statelessTTL),
          now, w.cfg.statelessTTL, false)
  }

  function IdDraft(w: World, g: Grant, now: Time): Draft {
    Draft(IdClaims(w.cfg, g.client.id, g.subject, g.nonce, g.authTime, w.profile(g.subject), now),
          now, ID_TOKEN_TTL, true)
  }

  function HeaderFor(k: Key): Header {
    Header(AlgName(k.alg), "JWT", k.Kid())
  }

  function MessageOf(w: World, k: Key, d: Draft): string {
    SigningInput(w.lib, HeaderFor(k), d.claims)
  }

  function TokenOf(w: World, k: Key, d: Draft): string {
    SignToken(w.lib, k.alg, k.Kid(), k.pair, d.claims)
  }

  function Drop(s: State, job: nat): State {
    s.(jobs := s.jobs - {job})
  }

  function Respond(s: State, job: nat, g: Grant, resp: TokenSet): State {
    s.(delivered := s.delivered[job := Response(g, resp)], jobs := s.jobs - {job})
  }

  function SetStage(s: State, job: nat, g: Grant, resp: TokenSet, stage: Stage): State {
    s.(jobs := s.jobs[job := Issuing(g, resp, stage)])
  }

  function WithAccess(w: World, g: Grant, resp: TokenSet, token: string): TokenSet {
    resp.(access := token, expiresIn := ExpiresIn(AccessTTL(w.cfg, ModeFor(w.cfg, g.client))))
  }

  function SignDraft(w: World, s: State, job: nat, g: Grant, resp: TokenSet, d: Draft, k: Key): State {
    var token := TokenOf(w, k, d);
    SetStage(s.(notary := s.notary[(k.pair, MessageOf(w, k, d)) := Minted(k, d, g)],
                log := s.log.(minted := s.log.minted + {Minted(k, d, g)})), job, g,
             if d.isId then resp.(idToken := Some(token)) else WithAccess(w, g, resp, token),
             if d.isId then AtRefresh else AtId)
  }

  /** A fresh opaque token and its row, stored under the token's hash. */
  function StoreRow(w: World, s: State, job: nat, g: Grant, resp: TokenSet, at: Time, ttl: Time, isRefresh: bool, token: string): State {
    var key := HashToken(w.lib, token);
    SetStage(s.(table := s.table[key := Row(OpaqueSession(w.lib, GrantSession(g), token, at, ttl), s.now)],
                log := s.log.(origins := s.log.origins[key := Origin(token, g.root)],
                              seen := s.log.seen + {token})),
             job, g,
             if isRefresh then resp.(refresh := Some(token)) else WithAccess(w, g, resp, token),
             if isRefresh then Complete else AtId)
  }

  /** One step of `issueTokenSet`. */
  function Issue(w: World, s: State, job: nat, g: Grant, resp: TokenSet, stage: Stage, random: seq<Byte>): State {
    match stage
    case AtAccess =>
      (match ModeFor(w.cfg, g.client)
       case Stateless => SetStage(s, job, g, resp, Drafted(AccessDraft(w, g, s.now, random)))
       case Stateful => SetStage(s, job, g, resp, Timed(s.now, w.cfg.statefulTTL, false))
       case Unknown(_) => Drop(s, job))
    case AtId =>
      SetStage(s, job, g, resp, if HasScope(g.scope, "openid") then Drafted(IdDraft(w, g, s.now)) else AtRefresh)
    case AtRefresh =>
      SetStage(s, job, g, resp, if HasScope(g.scope, "offline_access") then Timed(s.now, w.cfg.refreshTTL, true) else Complete)
    case Drafted(d) => SetStage(s, job, g, resp, Holding(d, s.ring.active))
    case Holding(d, k) => SignDraft(w, s, job, g, resp, d, k)
    case Timed(at, ttl, isRefresh) => StoreRow(w, s, job, g, resp, at, ttl, isRefresh, Encode(random))
    case Complete => Respond(s, job, g, resp)
  }

  function AdvanceJob(w: World, s: State, job: nat, random: seq<Byte>): State {
    if job !in s.jobs then s
    else
      match s.jobs[job]
      case Looked(x, client, ac) => Redeem(w, s, job, x, client, ac)
      case Validated(client, token, sess, root) => RevokeForRefresh(w, s, job, client, token, sess, root)
      case Issuing(g, resp, stage) => Issue(w, s, job, g, resp, stage, random)
  }

  /** One of the two row deletions of `handleRevoke`, which is open to every authenticated client. */
  function RevokeToken(w: World, s: State, token: string, credentials: Credentials): State {
    if token == "" || AuthenticateClient(w.clients, credentials).None? then s
    else s.(table := Next(s.table, Delete(HashToken(w.lib, token))), log := s.log.(seen := s.log.seen + {token}))
  }

  /** A failed key generation spends a sequence number and skips pruning. */
  function NextRing(s: State, e: Event): Ring
    requires e.RotateKey?
  {
    if e.material.None? then s.ring.(made := s.ring.made + 1)
    else Rotated(s.ring, Key(s.ring.active.alg, s.ring.made + 1, e.kidClock, e.createdAt, e.material.value), s.now)
  }

  function Rotate(s: State, e: Event): State
    requires e.RotateKey?
  {
    s.(ring := NextRing(s, e))
  }

  function SweepTable(s: State, asOf: Time): State {
    s.(table := Next(s.table, Sweep(asOf)))
  }

  /** Everything that is not a step of a login or of a token request. */
  function Background(w: World, s: State, e: Event): State {
    match e
    case Tick(to) => s.(now := to)
    case Fail(job) => Drop(s, job)
    case Revoke(token, credentials, _) => RevokeToken(w, s, token, credentials)
    case RevokeSubject(subject, _) => s.(table := Next(s.table, DeleteWhereSubject(subject)))
    case Present(token) => s.(log := s.log.(seen := s.log.seen + {token}))
    case SweepRows(asOf, _) => SweepTable(s, asOf)
    case PruneCodes => SweepCodes(s)
    case RotateKey(_, _, _) => Rotate(s, e)
    case PruneKeys => s.(ring := Pruned(s.ring, s.now - w.gracePeriod))
    case _ => s
  }

  /**
   Codes, handlers and private keys are gone, so nothing signed before verifies any more; the table
   is what the last completed snapshot holds, or nothing if there never was one.
   */
  function Restarted(s: State, ring: Ring): State {
    State(s.now, ring, s.disk, s.disk, map[], map[], map[], s.delivered, s.log)
  }

  /** The event, apart from the snapshot it may take. */
  function Act(w: World, s: State, e: Event): State {
    match e
    case LogIn(_, _, _, _, _, _) => InsertCode(w, s, e)
    case BeginExchange(job, x) => TakeCode(w, s, job, x)
    case BeginRefresh(job, token, credentials) => CheckRefresh(w, s, job, token, credentials)
    case Advance(job, random, _) => AdvanceJob(w, s, job, random)
    case Restart(ring) => Restarted(s, ring)
    case _ => Background(w, s, e)
  }

  /** The operation a handler's next step runs on the table, if it runs one. */
  function JobOp(w: World, s: State, job: nat, random: seq<Byte>): Option<Op> {
    if job !in s.jobs then None
    else
      match s.jobs[job]
      case Validated(_, token, _, _) => Some(Delete(HashToken(w.lib, token)))
      case Issuing(g, _, Timed(at, ttl, _)) =>
        var token := Encode(random);
        Some(Op.Put(HashToken(w.lib, token), OpaqueSession(w.lib, GrantSession(g), token, at, ttl), s.now))
      case _ => None
  }

  /** The operation an event runs on the table, if it runs one. */
  function TableOp(w: World, s: State, e: Event): Option<Op> {
    match e
    case Advance(job, random, _) => JobOp(w, s, job, random)
    case Revoke(token, credentials, _) =>
      if token == "" || AuthenticateClient(w.clients, credentials).None? then None else Some(Delete(HashToken(w.lib, token)))
    case RevokeSubject(subject, _) => Some(DeleteWhereSubject(subject))
    case SweepRows(asOf, _) => Some(Sweep(asOf))
    case _ => None
  }

  predicate SnapshotSucceeds(e: Event) {
    match e
    case Advance(_, _, saved) => saved
    case Revoke(_, _, saved) => saved
    case RevokeSubject(_, saved) => saved
    case SweepRows(_, saved) => saved
    case _ => false
  }

  /** A snapshot is due after an operation that changes the table, and only then. */
  predicate SnapshotDue(w: World, s: State, e: Event) {
    var op := TableOp(w, s, e);
    op.Some? && Changes(s.table, op.value)
  }

  predicate Saves(w: World, s: State, e: Event) {
    SnapshotDue(w, s, e) && SnapshotSucceeds(e)
  }

  function Persisted(s: State): State {
    s.(disk := s.table)
  }

  /** An event, with the snapshot of the changed table under the same lock. */
  function Step(w: World, s: State, e: Event): State {
    var s' := Act(w, s, e);
    if Saves(w, s, e) then Persisted(s') else s'
  }

  // ---- runs ----

  const NO_HISTORY: History := History(map[], {}, map[], map[], map[], map[], map[], {}, {}, {})

  ghost predicate Init(w: World, s: State) {
    && ClockOk(w, s.now) && FreshRing(s.ring)
    && s == State(s.now, s.ring, map[], map[], map[], map[], map[], map[], NO_HISTORY)
  }

  /** Some run of events the environment can produce leads here. */
  ghost predicate Reachable(w: World, s: State) {
    exists s0, es :: Init(w, s0) && AllowedRun(w, s0, es) && s == Run(w, s0, es)
  }

  function Run(w: World, s: State, es: seq<Event>): State
    decreases |es|
  {
    if es == [] then s else Run(w, Step(w, s, es[0]), es[1..])
  }

  predicate AllowedRun(w: World, s: State, es: seq<Event>)
    decreases |es|
  {
    es != [] ==> Allowed(w, s, es[0]) && AllowedRun(w, Step(w, s, es[0]), es[1..])
  }

  /** What is fixed about the deployment: clients filed under their id, profiles that keep off registered claims. */
  ghost predicate WellConfigured(w: World) {
    && Faithful(w.lib)
    && (forall id :: id in w.clients ==> w.clients[id].id == id)
    && (forall subject :: CleanProfile(w.profile(subject)))
  }

  lemma {:induction false} RunSplit(w: World, s: State, a: seq<Event>, b: seq<Event>)
    ensures Run(w, s, a + b) == Run(w, Run(w, s, a), b)
    ensures AllowedRun(w, s, a + b) <==> AllowedRun(w, s, a) && AllowedRun(w, Run(w, s, a), b)
    decreases |a|
  {
    if a == [] {
      assert a + b == b;
    } else {
      assert (a + b)[1..] == a[1..] + b;
      RunSplit(w, Step(w, s, a[0]), a[1..], b);
    }
  }

  // ---- the effect of each step, field by field ----

  ghost predicate SameHistory(h: History, h': History) {
    && h'.logins == h.logins && h'.looked == h.looked && h'.taken == h.taken && h'.redeemed == h.redeemed
    && h'.started == h.started && h'.presented == h.presented && h'.used == h.used
  }

  ghost predicate SameTokens(s: State, s': State) {
    && s'.table == s.table && s'.disk == s.disk && s'.notary == s.notary && s'.delivered == s.delivered
    && s'.log.origins == s.log.origins && s'.log.minted == s.log.minted
  }

  /** Every job but one is as it was. */
  ghost predicate OtherJobs(s: State, s': State, job: nat) {
    && (forall j :: j != job ==> (j in s'.jobs <==> j in s.jobs))
    && (forall j :: j != job && j in s'.jobs ==> s'.jobs[j] == s.jobs[j])
  }

  ghost predicate Inserted(s: State, s': State, code: string, login: Login) {
    && SameTokens(s, s') && s'.ring == s.ring && s'.jobs == s.jobs && s.now <= s'.now
    && code in s'.codes && s'.codes[code] == login.code
    && (forall c :: c in s'.codes && c != code ==> c in s.codes && s'.codes[c] == s.codes[c])
    && s'.log.logins == s.log.logins[code := login]
    && s'.log.seen == s.log.seen + {code} && s'.log.looked == s.log.looked && s'.log.taken == s.log.taken
    && s'.log.redeemed == s.log.redeemed && s'.log.started == s.log.started && s'.log.used == s.log.used
    && s'.log.presented == s.log.presented
  }

  ghost predicate TookCode(s: State, s': State, job: nat, x: Exchange, client: Client) {
    && SameTokens(s, s') && s'.now == s.now && s'.ring == s.ring
    && s'.log.logins == s.log.logins && s'.log.redeemed == s.log.redeemed && s'.log.started == s.log.started
    && s'.log.presented == s.log.presented && s'.log.looked == s.log.looked + {x.code} && s'.log.seen == s.log.seen + {x.code} && s'.log.used == s.log.used + {job}
    && OtherJobs(s, s', job)
    && (if x.code in s.codes then
          && s'.codes == s.codes - {x.code} && job in s'.jobs && s'.jobs[job] == Looked(x, client, s.codes[x.code])
          && s'.log.taken == s.log.taken[x.code := job]
        else
          s'.codes == s.codes && s'.jobs == s.jobs && s'.log.taken == s.log.taken)
  }

  ghost predicate CheckedRefresh(w: World, s: State, s': State, job: nat, token: string) {
    && SameTokens(s, s') && s'.now == s.now && s'.ring == s.ring && s'.codes == s.codes
    && s'.log.logins == s.log.logins && s'.log.looked == s.log.looked && s'.log.taken == s.log.taken
    && s'.log.redeemed == s.log.redeemed && s'.log.started == s.log.started
    && s.log.seen <= s'.log.seen <= s.log.seen + {token}
    && OtherJobs(s, s', job)
    && ((s'.jobs == s.jobs && s'.log.used == s.log.used && s'.log.presented == s.log.presented) || Validates(w, s, s', job, token))
  }

  ghost predicate Validates(w: World, s: State, s': State, job: nat, token: string) {
    && s'.log.used == s.log.used + {job} && token in s'.log.seen
    && job in s'.jobs && s'.jobs[job].Validated? && s'.jobs[job].token == token
    && ValidateOpaque(w.lib, s.table, token, s.now) == Some(s'.jobs[job].sess)
    && s'.jobs[job].sess.clientID == s'.jobs[job].client.id && IsClient(w, s'.jobs[job].client)
    && s'.jobs[job].root == RootOf(s, HashToken(w.lib, token))
    && job in s'.log.presented && s'.log.presented == s.log.presented[job := s'.log.presented[job]]
    && PresentedBy(w, s'.log.presented[job], s'.jobs[job], s.now)
  }

  /** The record of a presentation agrees with the handler, and its client proved itself. */
  ghost predicate PresentedBy(w: World, p: Presentation, job: Job, now: Time)
    requires job.Validated?
  {
    && p.token == job.token && p.client == job.client && p.sess == job.sess && p.at == now
    && Proves(w.clients, p.credentials, p.client)
  }

  /** A client record as the registry hands it out. */
  ghost predicate IsClient(w: World, c: Client) {
    exists id :: id in w.clients && w.clients[id] == c
  }

  ghost predicate Redeemed(w: World, s: State, s': State, job: nat, x: Exchange, client: Client, ac: AuthCode) {
    && SameTokens(s, s') && s'.now == s.now && s'.ring == s.ring && s'.codes == s.codes
    && s'.log.logins == s.log.logins && s'.log.looked == s.log.looked && s'.log.taken == s.log.taken
    && s'.log.seen == s.log.seen && s'.log.used == s.log.used && s'.log.presented == s.log.presented
    && OtherJobs(s, s', job)
    && (if CheckExchange(w.lib, ac, client, x, s.now).Some? then
          job !in s'.jobs && s'.log.redeemed == s.log.redeemed && s'.log.started == s.log.started
        else
          && job in s'.jobs
          && s'.jobs[job] == Begin(Grant(client, ac.subject, ac.scope, ac.nonce, ac.authTime, x.code))
          && s'.log.redeemed == s.log.redeemed[x.code := Redemption(job, client, x.redirectURI, x.verifier, x.credentials, s.now)]
          && s'.log.started == s.log.started[job := x.code])
  }

  ghost predicate RevokedRefresh(w: World, s: State, s': State, job: nat, client: Client, token: string, sess: Session, root: string) {
    && s'.now == s.now && s'.ring == s.ring && s'.codes == s.codes && s'.notary == s.notary
    && s'.disk == s.disk && s'.delivered == s.delivered && s'.log == s.log
    && OtherJobs(s, s', job) && job in s'.jobs
    && s'.jobs[job] == Begin(Grant(client, sess.subject, sess.scope, "", sess.issuedAt, root))
    && s'.table == s.table - {HashToken(w.lib, token)}
  }

  /** Apart from one job's stage, table rows, signatures and responses, nothing changes. */
  ghost predicate OnlyIssues(s: State, s': State, job: nat) {
    && s'.now == s.now && s'.ring == s.ring && s'.codes == s.codes && s'.disk == s.disk
    && SameHistory(s.log, s'.log) && s.log.seen <= s'.log.seen
    && OtherJobs(s, s', job) && (job in s'.jobs ==> s'.jobs[job].Issuing?)
  }

  /** Where a stage can lead. */
  ghost predicate Follows(w: World, s: State, g: Grant, stage: Stage, next: Stage, random: seq<Byte>) {
    match next
    case AtAccess => false
    case AtId => stage.Holding? || (stage.Timed? && !stage.isRefresh)
    case AtRefresh => stage.Holding? || stage.AtId?
    case Drafted(d) =>
      || (stage.AtAccess? && ModeFor(w.cfg, g.client) == Stateless && d == AccessDraft(w, g, s.now, random))
      || (stage.AtId? && d == IdDraft(w, g, s.now))
    case Holding(d, k) => stage == Drafted(d) && k == s.ring.active
    case Timed(at, ttl, isRefresh) =>
      && at == s.now
      && (if isRefresh then stage.AtRefresh? && ttl == w.cfg.refreshTTL
          else stage.AtAccess? && ModeFor(w.cfg, g.client) == Stateful && ttl == w.cfg.statefulTTL)
    case Complete => stage.AtRefresh? || (stage.Timed? && stage.isRefresh)
  }

  ghost predicate SameRows(s: State, s': State) {
    s'.table == s.table && s'.log.origins == s.log.origins && s'.log.seen == s.log.seen
  }

  ghost predicate StoredRow(w: World, s: State, s': State, g: Grant, at: Time, ttl: Time, token: string) {
    var key := HashToken(w.lib, token);
    && s'.table == s.table[key := Row(OpaqueSession(w.lib, GrantSession(g), token, at, ttl), s.now)]
    && s'.log.origins == s.log.origins[key := Origin(token, g.root)]
    && s'.log.seen == s.log.seen + {token}
  }

  /** One step of a handler that is issuing tokens. */
  ghost predicate Issued(w: World, s: State, s': State, job: nat, g: Grant, stage: Stage, random: seq<Byte>) {
    && OnlyIssues(s, s', job)
    && (job in s'.jobs ==> s'.jobs[job].g == g && Follows(w, s, g, stage, s'.jobs[job].stage, random))
    && (if stage.Timed? then StoredRow(w, s, s', g, stage.at, stage.ttl, Encode(random)) else SameRows(s, s'))
    && (if stage.Holding? then
          && s'.notary == s.notary[(stage.key.pair, MessageOf(w, stage.key, stage.draft)) := Minted(stage.key, stage.draft, g)]
          && s'.log.minted == s.log.minted + {Minted(stage.key, stage.draft, g)}
        else s'.notary == s.notary && s'.log.minted == s.log.minted)
  }

  /** Nothing but the clock, the ring, the disk, dropped jobs, dropped rows, expired codes and presented strings changes. */
  ghost predicate OnlyBackground(s: State, s': State) {
    && s.now <= s'.now && s'.notary == s.notary && s'.delivered == s.delivered
    && s'.log.origins == s.log.origins && s'.log.minted == s.log.minted
    && (forall k :: k in s'.table ==> k in s.table && s'.table[k] == s.table[k])
    && (s'.disk == s.disk || s'.disk == s'.table)
    && (forall c :: c in s'.codes ==> c in s.codes && s'.codes[c] == s.codes[c])
    && (forall j :: j in s'.jobs ==> j in s.jobs && s'.jobs[j] == s.jobs[j])
    && SameHistory(s.log, s'.log) && s.log.seen <= s'.log.seen
  }

  lemma InsertEffect(w: World, s: State, e: Event)
    requires e.LogIn? && Allowed(w, s, e)
    ensures var s' := InsertCode(w, s, e);
            s' == s ||
            exists client, subject ::
              && ValidateAuthRequest(w.clients, e.query) == Ok(client)
              && w.authenticate(e.username, e.password) == Some(subject)
              && s'.now == e.expiryClock
              && Inserted(s, s', Encode(e.random),
                          Login(NewAuthCode(e.query, client, subject, e.authClock, e.expiryClock + w.cfg.authCodeTTL),
                                e.query, e.username, e.password, e.authClock, e.expiryClock))
  {
    hide ValidateAuthRequest, NewAuthCode, Encode;
  }

  lemma SuccessfulLogin(w: World, s: State, kept: Codes, e: Event, client: Client, subject: string)
    requires e.LogIn? && ValidateAuthRequest(w.clients, e.query) == Ok(client) && w.authenticate(e.username, e.password) == Some(subject)
    ensures var code := Encode(e.random);
            var ac := NewAuthCode(e.query, client, subject, e.authClock, e.expiryClock + w.cfg.authCodeTTL);
            Insert(w, s, kept, e)
            == s.(codes := kept[code := ac], now := e.expiryClock,
                  log := s.log.(logins := s.log.logins[code := Login(ac, e.query, e.username, e.password, e.authClock, e.expiryClock)], seen := s.log.seen + {code}))
  {
    hide ValidateAuthRequest, NewAuthCode, Encode;
  }

  lemma FailedLogin(w: World, s: State, kept: Codes, e: Event)
    requires e.LogIn? && (ValidateAuthRequest(w.clients, e.query).Err? || w.authenticate(e.username, e.password).None?)
    ensures Insert(w, s, kept, e) == s
  {
    hide ValidateAuthRequest;
  }

  lemma TakeEffect(s: State, job: nat, x: Exchange, client: Client)
    ensures TookCode(s, Take(s, job, x, client), job, x, client)
  {
  }

  lemma ClientFromRegistry(w: World, c: Credentials)
    requires AuthenticateClient(w.clients, c).Some?
    ensures IsClient(w, AuthenticateClient(w.clients, c).value) && Proves(w.clients, c, AuthenticateClient(w.clients, c).value)
  {
    AuthenticatesExactly(w.clients, c, AuthenticateClient(w.clients, c).value);
    hide AuthenticateClient;
    assert w.clients[ShownID(c)] == AuthenticateClient(w.clients, c).value;
  }

  lemma EnterMisses(w: World, s: State, job: nat, token: string)
    ensures CheckedRefresh(w, s, s.(log := s.log.(seen := s.log.seen + {token})), job, token)
  {
    hide Validates;
  }

  lemma EnterHits(w: World, s: State, job: nat, client: Client, token: string, credentials: Credentials, sess: Session)
    requires IsClient(w, client) && Proves(w.clients, credentials, client)
    requires ValidateOpaque(w.lib, s.table, token, s.now) == Some(sess) && sess.clientID == client.id
    ensures CheckedRefresh(w, s,
              s.(jobs := s.jobs[job := Validated(client, token, sess, RootOf(s, HashToken(w.lib, token)))],
                 log := s.log.(seen := s.log.seen + {token}).(used := s.log.used + {job},
                   presented := s.log.presented[job := Presentation(token, credentials, client, sess, s.now)])), job, token)
  {
    hide ValidateOpaque, HashToken, RootOf, IsClient, Proves;
  }

  lemma EnterEffect(w: World, s: State, job: nat, token: string, credentials: Credentials, client: Client)
    requires IsClient(w, client) && Proves(w.clients, credentials, client)
    ensures CheckedRefresh(w, s, EnterRefresh(w, s, job, token, credentials, client), job, token)
  {
    var sess := ValidateOpaque(w.lib, s.table, token, s.now);
    hide ValidateOpaque, HashToken, RootOf, IsClient, Proves, CheckedRefresh;
    if sess.None? || sess.value.clientID != client.id {
      EnterMisses(w, s, job, token);
    } else {
      EnterHits(w, s, job, client, token, credentials, sess.value);
    }
  }

  lemma CheckEffect(w: World, s: State, job: nat, token: string, credentials: Credentials)
    ensures CheckedRefresh(w, s, CheckRefresh(w, s, job, token, credentials), job, token)
  {
    if AuthenticateClient(w.clients, credentials).Some? {
      ClientFromRegistry(w, credentials);
      EnterEffect(w, s, job, token, credentials, AuthenticateClient(w.clients, credentials).value);
    }
    hide AuthenticateClient, Proves, EnterRefresh, ValidateOpaque, HashToken, RootOf, IsClient;
  }

  lemma FailedEffect(w: World, s: State, job: nat, x: Exchange, client: Client, ac: AuthCode)
    requires CheckExchange(w.lib, ac, client, x, s.now).Some?
    ensures Redeemed(w, s, Drop(s, job), job, x, client, ac)
  {
    hide CheckExchange, Begin;
  }

  lemma PassedEffect(w: World, s: State, job: nat, x: Exchange, client: Client, ac: AuthCode)
    requires CheckExchange(w.lib, ac, client, x, s.now).None?
    ensures Redeemed(w, s, Redeem(w, s, job, x, client, ac), job, x, client, ac)
  {
    hide CheckExchange, Begin;
  }

  lemma RedeemEffect(w: World, s: State, job: nat, x: Exchange, client: Client, ac: AuthCode)
    ensures Redeemed(w, s, Redeem(w, s, job, x, client, ac), job, x, client, ac)
  {
    hide CheckExchange, Begin, Drop, Redeemed;
    if CheckExchange(w.lib, ac, client, x, s.now).Some? {
      FailedEffect(w, s, job, x, client, ac);
    } else {
      PassedEffect(w, s, job, x, client, ac);
    }
  }

  lemma RevokeRefreshEffect(w: World, s: State, job: nat, client: Client, token: string, sess: Session, root: string)
    ensures RevokedRefresh(w, s, RevokeForRefresh(w, s, job, client, token, sess, root), job, client, token, sess, root)
  {
    hide HashToken, Begin;
  }

  lemma SignEffect(w: World, s: State, job: nat, g: Grant, resp: TokenSet, d: Draft, k: Key, random: seq<Byte>)
    ensures Issued(w, s, SignDraft(w, s, job, g, resp, d, k), job, g, Holding(d, k), random)
  {
    hide MessageOf, TokenOf, WithAccess;
  }

  lemma StoreEffect(w: World, s: State, job: nat, g: Grant, resp: TokenSet, stage: Stage, random: seq<Byte>)
    requires stage.Timed?
    ensures Issued(w, s, StoreRow(w, s, job, g, resp, stage.at, stage.ttl, stage.isRefresh, Encode(random)), job, g, stage, random)
  {
    hide HashToken, OpaqueSession, WithAccess, Encode;
  }

  lemma StageEffect(w: World, s: State, job: nat, g: Grant, resp: TokenSet, stage: Stage, next: Stage, random: seq<Byte>)
    requires !stage.Holding? && !stage.Timed?
    ensures Follows(w, s, g, stage, next, random) ==> Issued(w, s, SetStage(s, job, g, resp, next), job, g, stage, random)
    ensures Issued(w, s, Drop(s, job), job, g, stage, random)
    ensures Issued(w, s, Respond(s, job, g, resp), job, g, stage, random)
  {
    hide Follows;
  }

  lemma IssueEffect(w: World, s: State, job: nat, g: Grant, resp: TokenSet, stage: Stage, random: seq<Byte>)
    ensures Issued(w, s, Issue(w, s, job, g, resp, stage, random), job, g, stage, random)
  {
    if stage.Holding? {
      SignEffect(w, s, job, g, resp, stage.draft, stage.key, random);
    } else if stage.Timed? {
      StoreEffect(w, s, job, g, resp, stage, random);
    } else {
      forall next
        ensures Follows(w, s, g, stage, next, random) ==> Issued(w, s, SetStage(s, job, g, resp, next), job, g, stage, random)
      {
        StageEffect(w, s, job, g, resp, stage, next, random);
      }
      StageEffect(w, s, job, g, resp, stage, stage, random);
    }
    hide Issued, SetStage, Drop, Respond, SignDraft, StoreRow, AccessDraft, IdDraft, HasScope, ModeFor, Encode;
  }

  lemma GoneEffect(s: State, key: string, token: string)
    ensures OnlyBackground(s, s.(table := Next(s.table, Delete(key)), log := s.log.(seen := s.log.seen + {token})))
  {
  }

  lemma RevokeEffect(w: World, s: State, token: string, credentials: Credentials)
    ensures OnlyBackground(s, RevokeToken(w, s, token, credentials))
  {
    GoneEffect(s, HashToken(w.lib, token), token);
    RingEffect(s, s.ring);
    hide AuthenticateClient, HashToken, Next, OnlyBackground;
  }

  lemma TableEffect(s: State, op: Op)
    requires !op.Put?
    ensures OnlyBackground(s, s.(table := Next(s.table, op)))
  {
  }

  lemma PersistedEffect(s: State)
    ensures OnlyBackground(s, Persisted(s))
  {
  }

  lemma DropEffect(s: State, job: nat)
    ensures OnlyBackground(s, Drop(s, job))
  {
  }

  lemma CodesEffect(s: State)
    ensures OnlyBackground(s, SweepCodes(s))
  {
  }

  lemma ClockEffect(s: State, to: Time)
    requires s.now <= to
    ensures OnlyBackground(s, s.(now := to))
  {
  }

  lemma SeenEffect(s: State, token: string)
    ensures OnlyBackground(s, s.(log := s.log.(seen := s.log.seen + {token})))
  {
  }

  lemma RingEffect(s: State, ring: Ring)
    ensures OnlyBackground(s, s.(ring := ring))
  {
  }

  lemma RotateEffect(s: State, e: Event)
    requires e.RotateKey?
    ensures OnlyBackground(s, Rotate(s, e))
  {
    RingEffect(s, NextRing(s, e));
    hide OnlyBackground, NextRing;
  }

  lemma BackgroundEffect(w: World, s: State, e: Event)
    requires Allowed(w, s, e)
    ensures OnlyBackground(s, Background(w, s, e))
  {
    RingEffect(s, s.ring);
    hide OnlyBackground, RevokeToken, Next, Drop, SweepCodes, Rotate, Pruned;
    match e
    case Tick(to) => ClockEffect(s, to);
    case Fail(job) => DropEffect(s, job);
    case Revoke(token, credentials, _) => RevokeEffect(w, s, token, credentials);
    case RevokeSubject(subject, _) => TableEffect(s, DeleteWhereSubject(subject));
    case Present(token) => SeenEffect(s, token);
    case SweepRows(asOf, _) => TableEffect(s, Sweep(asOf));
    case PruneCodes => CodesEffect(s);
    case RotateKey(_, _, _) => RotateEffect(s, e);
    case PruneKeys => RingEffect(s, Pruned(s.ring, s.now - w.gracePeriod));
    case _ =>
  }

  /** A restart leaves history and possibly rows. */
  ghost predicate OnlyRestarts(s: State, s': State) {
    && s'.now == s.now && FreshRing(s'.ring) && s'.codes == map[] && s'.jobs == map[] && s'.notary == map[]
    && s'.table == s.disk && s'.disk == s.disk && s'.log == s.log && s'.delivered == s.delivered
  }

  lemma RestartEffect(s: State, ring: Ring)
    requires FreshRing(ring)
    ensures OnlyRestarts(s, Restarted(s, ring))
  {
  }

  lemma AdvanceTime(w: World, s: State, job: nat, random: seq<Byte>)
    ensures s.now <= AdvanceJob(w, s, job, random).now
  {
    hide Issue, Redeem, RevokeForRefresh, Encode, StoredRow, Follows, CheckExchange;
    if job in s.jobs {
      match s.jobs[job]
      case Looked(x, client, ac) => RedeemEffect(w, s, job, x, client, ac);
      case Validated(client, token, sess, root) => RevokeRefreshEffect(w, s, job, client, token, sess, root);
      case Issuing(g, resp, stage) => IssueEffect(w, s, job, g, resp, stage, random);
    }
  }

  lemma ActTime(w: World, s: State, e: Event)
    requires Allowed(w, s, e)
    ensures s.now <= Act(w, s, e).now
  {
    hide AdvanceJob, Background, NewAuthCode, ValidateAuthRequest, AuthenticateClient, ValidateOpaque, HashToken, Encode;
    match e
    case LogIn(_, _, _, _, _, _) =>
    case BeginExchange(_, _) =>
    case BeginRefresh(_, _, _) =>
    case Advance(job, random, _) => AdvanceTime(w, s, job, random);
    case Restart(_) =>
    case _ => BackgroundEffect(w, s, e);
  }

  lemma StepTime(w: World, s: State, e: Event)
    requires Allowed(w, s, e)
    ensures s.now <= Step(w, s, e).now
  {
    ActTime(w, s, e);
    hide Act, Allowed, Saves;
  }

  /** What a step adds to the act is at most the disk. */
  lemma StepIs(w: World, s: State, e: Event)
    ensures Step(w, s, e) == if Saves(w, s, e) then Persisted(Act(w, s, e)) else Act(w, s, e)
    ensures !e.Advance? && !e.Revoke? && !e.RevokeSubject? && !e.SweepRows? ==> Step(w, s, e) == Act(w, s, e)
    ensures !SnapshotSucceeds(e) ==> Step(w, s, e) == Act(w, s, e)
  {
    hide Act, SnapshotDue, Persisted;
  }

  lemma Advances(w: World, s: State, job: nat, random: seq<Byte>, saved: bool)
    ensures Act(w, s, Advance(job, random, saved)) == AdvanceJob(w, s, job, random)
  {
    hide AdvanceJob;
  }

  lemma AdvanceIssues(w: World, s: State, job: nat, g: Grant, resp: TokenSet, stage: Stage, random: seq<Byte>, saved: bool)
    requires job in s.jobs && s.jobs[job] == Issuing(g, resp, stage)
    ensures Act(w, s, Advance(job, random, saved)) == Issue(w, s, job, g, resp, stage, random)
  {
    hide Issue;
  }
}
