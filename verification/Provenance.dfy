/**
 Where tokens come from: every table row and every accepted JWT goes back to a successful login
 whose code the same client redeemed, with the bound redirect URI and a matching verifier, within
 the code's lifetime.
 */
module Provenance {
  import opened Wrappers
  import opened Clock
  import opened Base64Url
  import opened Primitives
  import opened Jwt
  import opened KeyRing
  import opened Sessions
  import opened Stores
  import opened Grants
  import opened Sidecar
  import opened SingleUse
  import opened OpaqueTokens
  import Pkce
  import Text

  // ---- the record of logins and redemptions ----

  /** The code holds what was asked for, the subject authenticated, and both readings of the clock. */
  predicate CodeHolds(w: World, l: Login) {
    && l.code.clientID == l.query.clientID && l.code.redirectURI == l.query.redirectURI && l.code.scope == l.query.scope
    && l.code.codeChallenge == l.query.codeChallenge && l.code.codeChallengeMethod == l.query.codeChallengeMethod
    && l.code.nonce == l.query.nonce && l.code.authTime == l.at && l.code.expiresAt == l.storedAt + w.cfg.authCodeTTL
  }

  /** The code was issued for a proper request, to a user who gave the right credentials. */
  ghost predicate LoginOk(w: World, s: State, l: Login) {
    && ProperRequest(w.clients, l.query) && w.authenticate(l.username, l.password) == Some(l.code.subject) && CodeHolds(w, l)
    && l.at <= l.storedAt <= s.now && InRange(l.at)
  }

  /** The client the code was issued to proved itself and redeemed it in time, with the bound redirect URI and a verifier that matches. */
  ghost predicate RedemptionOk(w: World, s: State, ac: AuthCode, r: Redemption) {
    && Proves(w.clients, r.credentials, r.client) && r.client.id == ac.clientID && r.redirectURI == ac.redirectURI
    && Pkce.Fits(w.lib, r.verifier, ac.codeChallenge)
    && ac.authTime <= r.at <= ac.expiresAt && r.at <= s.now
  }

  /** A refresh token that was accepted was its client's, who had proved itself. */
  ghost predicate PresentationOk(w: World, p: Presentation) {
    Proves(w.clients, p.credentials, p.client) && p.sess.clientID == p.client.id
  }

  ghost predicate RedeemedOk(w: World, s: State, c: string)
    requires c in s.log.redeemed
  {
    c in s.log.logins && RedemptionOk(w, s, s.log.logins[c].code, s.log.redeemed[c])
  }

  /** `root` is the code of a login that was redeemed, and these are its subject, client and scope. */
  ghost predicate Descends(s: State, root: string, subject: string, clientID: string, scope: string) {
    && root in s.log.logins && root in s.log.redeemed
    && s.log.logins[root].code.subject == subject
    && s.log.logins[root].code.clientID == clientID
    && s.log.logins[root].code.scope == scope
  }

  // ---- everything in flight or stored descends from one ----

  ghost predicate GrantFrom(w: World, s: State, g: Grant) {
    Descends(s, g.root, g.subject, g.client.id, g.scope) && IsClient(w, g.client) && InRange(g.authTime)
  }

  /** A draft names the issuer, the grant's subject and client, and its scope unless it is an ID token, and lives its lifetime. */
  ghost predicate DraftFrom(w: World, g: Grant, d: Draft) {
    && d.claims.issuer == w.cfg.issuer && d.claims.subject == g.subject && d.claims.audience == [g.client.id]
    && d.claims.scope == (if d.isId then "" else g.scope)
    && d.claims.expiresAt == Unix(d.readAt + (if d.isId then 600 * SECOND else w.cfg.statelessTTL))
    && d.claims.notBefore == 0 && d.claims.issuedAt == Unix(d.readAt)
    && (if d.isId then d.claims.jwtID == "" && IdExtras(w.profile(g.subject), g.nonce, g.authTime, d.claims.extra) else d.claims.extra == map[])
    && Sound(d.claims)
  }

  ghost predicate StageFrom(w: World, g: Grant, st: Stage) {
    && (st.Drafted? ==> DraftFrom(w, g, st.draft))
    && (st.Holding? ==> DraftFrom(w, g, st.draft))
    && (st.Timed? ==> InRange(st.at))
  }

  ghost predicate JobFrom(w: World, s: State, job: Job) {
    match job
    case Looked(x, client, ac) => x.code in s.log.logins && s.log.logins[x.code].code == ac && Proves(w.clients, x.credentials, client)
    case Validated(client, token, sess, root) =>
      Descends(s, root, sess.subject, sess.clientID, sess.scope) && sess.clientID == client.id
      && IsClient(w, client) && InRange(sess.issuedAt)
    case Issuing(g, resp, stage) => GrantFrom(w, s, g) && StageFrom(w, g, stage)
  }

  ghost predicate RowFrom(s: State, k: string, row: Session) {
    k in s.log.origins && Descends(s, s.log.origins[k].root, row.subject, row.clientID, row.scope) && InRange(row.issuedAt)
  }

  ghost predicate MintedFrom(w: World, s: State, n: (KeyPair, string), m: Minted) {
    GrantFrom(w, s, m.g) && DraftFrom(w, m.g, m.draft) && n == (m.key.pair, MessageOf(w, m.key, m.draft))
  }

  ghost predicate CodeFrom(s: State, c: string)
    requires c in s.codes
  {
    c in s.log.logins && s.log.logins[c].code == s.codes[c]
  }

  ghost predicate Traced(w: World, s: State) {
    && ClockOk(w, s.now)
    && (forall c :: c in s.log.logins ==> LoginOk(w, s, s.log.logins[c]))
    && (forall c :: c in s.log.redeemed ==> RedeemedOk(w, s, c))
    && (forall j :: j in s.log.presented ==> PresentationOk(w, s.log.presented[j]))
    && (forall c :: c in s.codes ==> CodeFrom(s, c))
    && (forall j :: j in s.jobs ==> JobFrom(w, s, s.jobs[j]))
    && (forall k :: k in s.table ==> RowFrom(s, k, s.table[k].session))
    && (forall k :: k in s.disk ==> RowFrom(s, k, s.disk[k].session))
    && (forall n :: n in s.notary ==> MintedFrom(w, s, n, s.notary[n]))
  }

  // ---- the record only grows ----

  ghost predicate RecordGrows(s: State, s': State) {
    && s.now <= s'.now
    && (forall c :: c in s.log.logins ==> c in s'.log.logins && s'.log.logins[c] == s.log.logins[c])
    && (forall c :: c in s.log.redeemed ==> c in s'.log.redeemed && s'.log.redeemed[c] == s.log.redeemed[c])
  }

  lemma JobStays(w: World, s: State, s': State, job: Job)
    requires JobFrom(w, s, job) && RecordGrows(s, s')
    ensures JobFrom(w, s', job)
  {
    hide IsClient, Sound, InRange;
  }

  lemma MintedStays(w: World, s: State, s': State, n: (KeyPair, string), m: Minted)
    requires MintedFrom(w, s, n, m) && RecordGrows(s, s')
    ensures MintedFrom(w, s', n, m)
  {
    hide IsClient, Sound, InRange, MessageOf;
  }

  /** The row was in the table or on the disk before, with the same origin. */
  ghost predicate RowBefore(s: State, s': State, k: string, row: Row) {
    && ((k in s.table && s.table[k] == row) || (k in s.disk && s.disk[k] == row))
    && (k in s.log.origins ==> k in s'.log.origins && s'.log.origins[k] == s.log.origins[k])
  }

  lemma RowStays(w: World, s: State, s': State, k: string, row: Row)
    requires Traced(w, s) && RecordGrows(s, s') && RowBefore(s, s', k, row)
    ensures RowFrom(s', k, row.session)
  {
    hide InRange, LoginOk, RedeemedOk, PresentationOk, CodeFrom, JobFrom, MintedFrom, ClockOk;
    assert RowFrom(s, k, row.session);
  }

  /** What must be shown of a step: the record grows rightly, and what is new in each table is traced. */
  lemma TracedStep(w: World, s: State, s': State)
    requires Traced(w, s) && RecordGrows(s, s') && ClockOk(w, s'.now)
    requires forall c :: c in s'.log.logins ==> c in s.log.logins || LoginOk(w, s', s'.log.logins[c])
    requires forall c :: c in s'.log.redeemed ==> c in s.log.redeemed || RedeemedOk(w, s', c)
    requires forall j :: j in s'.log.presented ==>
      (j in s.log.presented && s'.log.presented[j] == s.log.presented[j]) || PresentationOk(w, s'.log.presented[j])
    requires forall c :: c in s'.codes ==> (c in s.codes && s'.codes[c] == s.codes[c]) || CodeFrom(s', c)
    requires forall j :: j in s'.jobs ==> (j in s.jobs && s'.jobs[j] == s.jobs[j]) || JobFrom(w, s', s'.jobs[j])
    requires forall k :: k in s'.table ==> RowBefore(s, s', k, s'.table[k]) || RowFrom(s', k, s'.table[k].session)
    requires forall k :: k in s'.disk ==> RowBefore(s, s', k, s'.disk[k]) || (k in s'.table && s'.table[k] == s'.disk[k])
    requires forall n :: n in s'.notary ==> (n in s.notary && s'.notary[n] == s.notary[n]) || MintedFrom(w, s', n, s'.notary[n])
    ensures Traced(w, s')
  {
    hide InRange, ProperRequest, CodeHolds, Proves, Pkce.Fits, PresentationOk, ClockOk, JobFrom, MintedFrom, RowFrom, RowBefore;
    forall c | c in s'.log.logins ensures LoginOk(w, s', s'.log.logins[c]) {
      assert c in s.log.logins ==> LoginOk(w, s, s.log.logins[c]);
    }
    forall c | c in s'.log.redeemed ensures RedeemedOk(w, s', c) {
      assert c in s.log.redeemed ==> RedeemedOk(w, s, c);
    }
    forall c | c in s'.codes ensures CodeFrom(s', c) {
      assert c in s.codes ==> CodeFrom(s, c);
    }
    forall j | j in s'.jobs ensures JobFrom(w, s', s'.jobs[j]) {
      if j in s.jobs && s'.jobs[j] == s.jobs[j] { JobStays(w, s, s', s.jobs[j]); }
    }
    assert forall k :: k in s'.table ==> RowFrom(s', k, s'.table[k].session) by {
      forall k | k in s'.table && RowBefore(s, s', k, s'.table[k]) ensures RowFrom(s', k, s'.table[k].session) {
        RowStays(w, s, s', k, s'.table[k]);
      }
    }
    forall k | k in s'.disk ensures RowFrom(s', k, s'.disk[k].session) {
      if RowBefore(s, s', k, s'.disk[k]) { RowStays(w, s, s', k, s'.disk[k]); }
    }
    forall n | n in s'.notary ensures MintedFrom(w, s', n, s'.notary[n]) {
      if n in s.notary && s'.notary[n] == s.notary[n] { MintedStays(w, s, s', n, s.notary[n]); }
    }
  }

  // ---- each step ----

  lemma BackgroundTraced(w: World, s: State, s': State)
    requires Traced(w, s) && OnlyBackground(s, s') && ClockOk(w, s'.now)
    ensures Traced(w, s')
  {
    hide InRange, LoginOk, RedeemedOk, PresentationOk, CodeFrom, JobFrom, RowFrom, MintedFrom, ClockOk;
    TracedStep(w, s, s');
  }

  lemma RestartTraced(w: World, s: State, s': State)
    requires Traced(w, s) && OnlyRestarts(s, s')
    ensures Traced(w, s')
  {
    hide InRange, LoginOk, RedeemedOk, PresentationOk, CodeFrom, JobFrom, RowFrom, MintedFrom, ClockOk;
    TracedStep(w, s, s');
  }

  lemma InsertTraced(w: World, s: State, s': State, code: string, login: Login)
    requires Traced(w, s) && Once(s) && Inserted(s, s', code, login) && code !in s.log.seen
    requires LoginOk(w, s', login) && ClockOk(w, s'.now)
    ensures Traced(w, s')
  {
    hide InRange, LoginOk, RedeemedOk, PresentationOk, JobFrom, RowFrom, MintedFrom, ClockOk;
    TracedStep(w, s, s');
  }

  lemma TakeTraced(w: World, s: State, s': State, job: nat, x: Exchange, client: Client)
    requires Traced(w, s) && TookCode(s, s', job, x, client) && Proves(w.clients, x.credentials, client)
    ensures Traced(w, s')
  {
    hide InRange, LoginOk, RedeemedOk, PresentationOk, RowFrom, MintedFrom, ClockOk, Proves;
    assert x.code in s.codes ==> CodeFrom(s, x.code);
    TracedStep(w, s, s');
  }

  lemma CheckTraced(w: World, s: State, s': State, job: nat, token: string)
    requires Traced(w, s) && CheckedRefresh(w, s, s', job, token)
    ensures Traced(w, s')
  {
    hide InRange, LoginOk, RedeemedOk, CodeFrom, MintedFrom, ClockOk, IsClient, Proves, HashToken;
    var key := HashToken(w.lib, token);
    assert key in s.table ==> RowFrom(s, key, s.table[key].session);
    TracedStep(w, s, s');
  }

  lemma NotYetRedeemed(s: State, job: nat, x: Exchange, client: Client, ac: AuthCode)
    requires Once(s) && job in s.jobs && s.jobs[job] == Looked(x, client, ac)
    ensures x.code !in s.log.redeemed
  {
    assert OwnsItsCode(s, job);
    assert x.code in s.log.redeemed ==> RedeemedBy(s, x.code, s.log.redeemed[x.code].job);
    assert forall j :: RedeemedBy(s, x.code, j) ==> TakenBy(s, x.code, j);
  }

  lemma ProvenClient(w: World, c: Credentials, client: Client)
    requires Proves(w.clients, c, client)
    ensures IsClient(w, client)
  {
    assert w.clients[ShownID(c)] == client;
  }

  /** A passed check is a proper redemption, and the job goes on with a grant that descends from it. */
  lemma PassedCheck(w: World, s: State, s': State, job: nat, x: Exchange, client: Client, ac: AuthCode)
    requires Redeemed(w, s, s', job, x, client, ac) && CheckExchange(w.lib, ac, client, x, s.now).None?
    requires x.code in s.log.logins && s.log.logins[x.code].code == ac && Proves(w.clients, x.credentials, client)
    requires LoginOk(w, s, s.log.logins[x.code])
    ensures RedeemedOk(w, s', x.code) && JobFrom(w, s', s'.jobs[job])
  {
    ExchangePassesExactly(w.lib, ac, client, x, s.now);
    ProvenClient(w, x.credentials, client);
    hide InRange, IsClient, Proves, ProperRequest, CheckExchange, Pkce.Fits;
  }

  lemma RedeemTraced(w: World, s: State, s': State, job: nat, x: Exchange, client: Client, ac: AuthCode)
    requires Traced(w, s) && Once(s) && job in s.jobs && s.jobs[job] == Looked(x, client, ac)
    requires Redeemed(w, s, s', job, x, client, ac)
    ensures Traced(w, s')
  {
    hide InRange, LoginOk, RedeemedOk, PresentationOk, CodeFrom, RowFrom, MintedFrom, ClockOk, IsClient, Proves, CheckExchange, Begin, Once, Descends;
    NotYetRedeemed(s, job, x, client, ac);
    if CheckExchange(w.lib, ac, client, x, s.now).None? {
      assert JobFrom(w, s, s.jobs[job]);
      assert LoginOk(w, s, s.log.logins[x.code]);
      PassedCheck(w, s, s', job, x, client, ac);
    }
    TracedStep(w, s, s');
  }

  lemma RevokedJob(w: World, s: State, s': State, job: nat, client: Client, token: string, sess: Session, root: string)
    requires JobFrom(w, s, Validated(client, token, sess, root))
    requires RevokedRefresh(w, s, s', job, client, token, sess, root)
    ensures JobFrom(w, s', s'.jobs[job])
  {
    hide InRange, IsClient, HashToken;
  }

  lemma RevokeTraced(w: World, s: State, s': State, job: nat, client: Client, token: string, sess: Session, root: string)
    requires Traced(w, s) && job in s.jobs && s.jobs[job] == Validated(client, token, sess, root)
    requires RevokedRefresh(w, s, s', job, client, token, sess, root)
    ensures Traced(w, s')
  {
    hide InRange, LoginOk, RedeemedOk, PresentationOk, CodeFrom, JobFrom, RowFrom, MintedFrom, ClockOk, IsClient, HashToken, Begin;
    assert JobFrom(w, s, s.jobs[job]);
    RevokedJob(w, s, s', job, client, token, sess, root);
    TracedStep(w, s, s');
  }

  lemma DraftsTraced(w: World, s: State, g: Grant, random: seq<Byte>)
    requires WellConfigured(w) && ClockOk(w, s.now) && InRange(g.authTime)
    ensures DraftFrom(w, g, AccessDraft(w, g, s.now, random)) && DraftFrom(w, g, IdDraft(w, g, s.now))
  {
    AccessClaimsSound(w.cfg.issuer, GrantSession(g), Encode(random), s.now, w.cfg.statelessTTL);
    IdClaimsSound(w.cfg, g.client.id, g.subject, g.nonce, g.authTime, w.profile(g.subject), s.now);
    IdClaimsExtras(w.cfg, g.client.id, g.subject, g.nonce, g.authTime, w.profile(g.subject), s.now);
    hide Encode, Sound, InRange, CleanProfile, IdExtras;
  }

  lemma NextTraced(w: World, s: State, g: Grant, stage: Stage, next: Stage, random: seq<Byte>)
    requires WellConfigured(w) && ClockOk(w, s.now) && InRange(g.authTime)
    requires StageFrom(w, g, stage) && Follows(w, s, g, stage, next, random)
    ensures StageFrom(w, g, next)
  {
    DraftsTraced(w, s, g, random);
    hide DraftFrom, AccessDraft, IdDraft, ModeFor, Faithful, CleanProfile;
  }

  lemma NewRowTraced(w: World, s: State, s': State, g: Grant, at: Time, ttl: Time, token: string)
    requires GrantFrom(w, s, g) && InRange(at) && StoredRow(w, s, s', g, at, ttl, token) && RecordGrows(s, s')
    ensures RowFrom(s', HashToken(w.lib, token), s'.table[HashToken(w.lib, token)].session)
  {
    hide InRange, IsClient, HashToken;
  }

  lemma SignedTraced(w: World, s: State, s': State, job: nat, n: (KeyPair, string), m: Minted)
    requires Traced(w, s) && OnlyIssues(s, s', job) && SameRows(s, s') && s'.notary == s.notary[n := m]
    requires (job in s'.jobs ==> JobFrom(w, s', s'.jobs[job])) && MintedFrom(w, s', n, m)
    ensures Traced(w, s')
  {
    hide InRange, LoginOk, RedeemedOk, PresentationOk, CodeFrom, JobFrom, RowFrom, MintedFrom, ClockOk;
    TracedStep(w, s, s');
  }

  lemma StoredTraced(w: World, s: State, s': State, job: nat, g: Grant, at: Time, ttl: Time, token: string)
    requires Traced(w, s) && OnlyIssues(s, s', job) && StoredRow(w, s, s', g, at, ttl, token) && s'.notary == s.notary
    requires (job in s'.jobs ==> JobFrom(w, s', s'.jobs[job])) && RowFrom(s', HashToken(w.lib, token), s'.table[HashToken(w.lib, token)].session)
    requires HashToken(w.lib, token) !in s.disk
    ensures Traced(w, s')
  {
    hide InRange, LoginOk, RedeemedOk, PresentationOk, CodeFrom, JobFrom, MintedFrom, ClockOk, HashToken, OpaqueSession, GrantSession, Descends;
    TracedStep(w, s, s');
  }

  lemma StagedTraced(w: World, s: State, s': State, job: nat)
    requires Traced(w, s) && OnlyIssues(s, s', job) && SameRows(s, s') && s'.notary == s.notary
    requires job in s'.jobs ==> JobFrom(w, s', s'.jobs[job])
    ensures Traced(w, s')
  {
    hide InRange, LoginOk, RedeemedOk, PresentationOk, CodeFrom, JobFrom, RowFrom, MintedFrom, ClockOk;
    TracedStep(w, s, s');
  }

  lemma IssueTraced(w: World, s: State, s': State, job: nat, g: Grant, resp: TokenSet, stage: Stage, random: seq<Byte>)
    requires WellConfigured(w) && Traced(w, s) && job in s.jobs && s.jobs[job] == Issuing(g, resp, stage)
    requires Issued(w, s, s', job, g, stage, random)
    requires RowsNamed(w, s) && (stage.Timed? ==> Encode(random) !in s.log.seen)
    ensures Traced(w, s')
  {
    assert JobFrom(w, s, s.jobs[job]);
    if stage.Timed? { UnseenHasNoRow(w, s, Encode(random)); }
    IssuedNew(w, s, s', job, g, resp, stage, random);
    hide Traced, RowsNamed, JobFrom, RowFrom, MintedFrom, Follows, MessageOf, HashToken, OnlyIssues, SameRows, StoredRow, Encode, WellConfigured;
    if stage.Holding? {
      SignedTraced(w, s, s', job, (stage.key.pair, MessageOf(w, stage.key, stage.draft)), Minted(stage.key, stage.draft, g));
    } else if stage.Timed? {
      StoredTraced(w, s, s', job, g, stage.at, stage.ttl, Encode(random));
    } else {
      StagedTraced(w, s, s', job);
    }
  }

  lemma IssuedNew(w: World, s: State, s': State, job: nat, g: Grant, resp: TokenSet, stage: Stage, random: seq<Byte>)
    requires WellConfigured(w) && ClockOk(w, s.now) && JobFrom(w, s, Issuing(g, resp, stage))
    requires Issued(w, s, s', job, g, stage, random)
    ensures job in s'.jobs ==> JobFrom(w, s', s'.jobs[job])
    ensures stage.Timed? ==> RowFrom(s', HashToken(w.lib, Encode(random)), s'.table[HashToken(w.lib, Encode(random))].session)
    ensures stage.Holding? ==>
      MintedFrom(w, s', (stage.key.pair, MessageOf(w, stage.key, stage.draft)), Minted(stage.key, stage.draft, g))
  {
    hide Faithful, CleanProfile, InRange, IsClient, MessageOf, HashToken, Encode, DraftFrom, Follows, ClockOk;
    assert RecordGrows(s, s');
    if job in s'.jobs {
      NextTraced(w, s, g, stage, s'.jobs[job].stage, random);
    }
    if stage.Timed? {
      NewRowTraced(w, s, s', g, stage.at, stage.ttl, Encode(random));
    }
  }

  lemma AdvanceTraced(w: World, s: State, job: nat, random: seq<Byte>)
    requires WellConfigured(w) && Traced(w, s) && Once(s) && RowsNamed(w, s)
    requires DrawsToken(s, job) ==> Encode(random) !in s.log.seen
    ensures Traced(w, AdvanceJob(w, s, job, random))
  {
    hide Traced, Once, RowsNamed, Encode, Issue, Redeem, RevokeForRefresh, WellConfigured;
    if job in s.jobs {
      match s.jobs[job]
      case Looked(x, client, ac) =>
        RedeemEffect(w, s, job, x, client, ac);
        RedeemTraced(w, s, Redeem(w, s, job, x, client, ac), job, x, client, ac);
      case Validated(client, token, sess, root) =>
        RevokeRefreshEffect(w, s, job, client, token, sess, root);
        RevokeTraced(w, s, RevokeForRefresh(w, s, job, client, token, sess, root), job, client, token, sess, root);
      case Issuing(g, resp, stage) =>
        IssueEffect(w, s, job, g, resp, stage, random);
        IssueTraced(w, s, Issue(w, s, job, g, resp, stage, random), job, g, resp, stage, random);
    }
  }

  lemma TakeCodeTraced(w: World, s: State, job: nat, x: Exchange)
    requires Traced(w, s)
    ensures Traced(w, TakeCode(w, s, job, x))
  {
    hide AuthenticateClient, Take, Traced, IsClient, Proves;
    if AuthenticateClient(w.clients, x.credentials).Some? {
      var client := AuthenticateClient(w.clients, x.credentials).value;
      ClientFromRegistry(w, x.credentials);
      TakeEffect(s, job, x, client);
      TakeTraced(w, s, Take(s, job, x, client), job, x, client);
    }
  }

  lemma NewLogin(w: World, s: State, s': State, e: Event, client: Client, subject: string, l: Login)
    requires (forall id :: id in w.clients ==> w.clients[id].id == id)
    requires e.LogIn? && ClockOk(w, e.authClock) && e.authClock <= e.expiryClock == s'.now
    requires ValidateAuthRequest(w.clients, e.query) == Ok(client) && w.authenticate(e.username, e.password) == Some(subject)
    requires l == Login(NewAuthCode(e.query, client, subject, e.authClock, e.expiryClock + w.cfg.authCodeTTL),
                        e.query, e.username, e.password, e.authClock, e.expiryClock)
    ensures LoginOk(w, s', l)
  {
    AcceptsExactly(w.clients, e.query);
    hide ValidateAuthRequest;
  }

  lemma LogInTraced(w: World, s: State, e: Event)
    requires forall id :: id in w.clients ==> w.clients[id].id == id
    requires Traced(w, s) && Once(s) && e.LogIn? && Allowed(w, s, e)
    ensures Traced(w, InsertCode(w, s, e))
  {
    InsertEffect(w, s, e);
    var s' := InsertCode(w, s, e);
    hide InsertCode, Once, NewAuthCode, ValidateAuthRequest, Encode, Inserted, LoginOk, RedeemedOk, PresentationOk, CodeFrom, JobFrom, RowFrom, MintedFrom;
    if s' != s {
      var client, subject :|
        && ValidateAuthRequest(w.clients, e.query) == Ok(client)
        && w.authenticate(e.username, e.password) == Some(subject)
        && s'.now == e.expiryClock
        && Inserted(s, s', Encode(e.random),
                    Login(NewAuthCode(e.query, client, subject, e.authClock, e.expiryClock + w.cfg.authCodeTTL),
                          e.query, e.username, e.password, e.authClock, e.expiryClock));
      var l := Login(NewAuthCode(e.query, client, subject, e.authClock, e.expiryClock + w.cfg.authCodeTTL),
                     e.query, e.username, e.password, e.authClock, e.expiryClock);
      NewLogin(w, s, s', e, client, subject, l);
      InsertTraced(w, s, s', Encode(e.random), l);
    }
  }

  lemma BackgroundClock(w: World, s: State, e: Event)
    requires ClockOk(w, s.now) && Allowed(w, s, e)
    ensures ClockOk(w, Background(w, s, e).now)
  {
    hide ClockOk, RevokeToken, Next, Drop, SweepCodes, Rotate, Pruned;
    if e.Revoke? {
      RevokeClock(w, s, e.token, e.credentials);
    } else if e.RotateKey? {
      RotateClock(s, e);
    } else if e.Fail? || e.PruneCodes? {
      QuietClock(s, if e.Fail? then e.job else 0);
    }
  }

  lemma RevokeClock(w: World, s: State, token: string, credentials: Credentials)
    ensures RevokeToken(w, s, token, credentials).now == s.now
  {
    hide AuthenticateClient, HashToken;
  }

  lemma RotateClock(s: State, e: Event)
    requires e.RotateKey?
    ensures Rotate(s, e).now == s.now
  {
    hide NextRing;
  }

  lemma QuietClock(s: State, job: nat)
    ensures Drop(s, job).now == s.now && SweepCodes(s).now == s.now
  {
  }

  lemma ActTraced(w: World, s: State, e: Event)
    requires WellConfigured(w) && Traced(w, s) && Once(s) && RowsNamed(w, s) && Allowed(w, s, e)
    ensures Traced(w, Act(w, s, e))
  {
    assert ClockOk(w, s.now);
    hide InsertCode, TakeCode, CheckRefresh, AdvanceJob, Background, Restarted, Traced, Once, RowsNamed, WellConfigured, ClockOk, Encode;
    match e
    case LogIn(_, _, _, _, _, _) => LogInTraced(w, s, e);
    case BeginExchange(job, x) => TakeCodeTraced(w, s, job, x);
    case BeginRefresh(job, token, credentials) =>
      CheckEffect(w, s, job, token, credentials);
      CheckTraced(w, s, CheckRefresh(w, s, job, token, credentials), job, token);
    case Advance(job, random, _) => AdvanceTraced(w, s, job, random);
    case Restart(ring) =>
      RestartEffect(s, ring);
      RestartTraced(w, s, Restarted(s, ring));
    case _ =>
      BackgroundEffect(w, s, e);
      BackgroundClock(w, s, e);
      BackgroundTraced(w, s, Background(w, s, e));
  }

  lemma PersistedTraced(w: World, s: State)
    requires Traced(w, s)
    ensures Traced(w, Persisted(s))
  {
    hide Traced;
    PersistedEffect(s);
    assert ClockOk(w, s.now) by { TracedClock(w, s); }
    BackgroundTraced(w, s, Persisted(s));
  }

  lemma TracedClock(w: World, s: State)
    requires Traced(w, s)
    ensures ClockOk(w, s.now)
  {
    hide ClockOk, LoginOk, RedeemedOk, PresentationOk, CodeFrom, JobFrom, RowFrom, MintedFrom;
  }

  lemma StepTraced(w: World, s: State, e: Event)
    requires WellConfigured(w) && Traced(w, s) && Once(s) && RowsNamed(w, s) && Allowed(w, s, e)
    ensures Traced(w, Step(w, s, e))
  {
    StepIs(w, s, e);
    ActTraced(w, s, e);
    hide Act, Step, Saves, Traced, Once, RowsNamed, WellConfigured;
    if Saves(w, s, e) { PersistedTraced(w, Act(w, s, e)); }
  }

  /** What every step keeps, together. */
  ghost predicate Invariants(w: World, s: State) {
    Traced(w, s) && Once(s) && RowsNamed(w, s)
  }

  lemma StepKept(w: World, s: State, e: Event)
    requires WellConfigured(w) && Invariants(w, s) && Allowed(w, s, e)
    ensures Invariants(w, Step(w, s, e))
  {
    hide Traced, Once, RowsNamed, Step, Allowed, RowsSettle, JsonRoundTrips, HashInjective, SignaturesMatch;
    StepTraced(w, s, e);
    StepOnce(w, s, e);
    StepSettles(w, s, e);
  }

  lemma {:induction false} RunKept(w: World, s: State, es: seq<Event>)
    requires WellConfigured(w) && Invariants(w, s) && AllowedRun(w, s, es)
    ensures Invariants(w, Run(w, s, es))
    decreases |es|
  {
    hide Invariants, Step, Allowed, WellConfigured;
    if es != [] {
      StepKept(w, s, es[0]);
      RunKept(w, Step(w, s, es[0]), es[1..]);
    }
  }

  lemma InitKept(w: World, s: State)
    requires Init(w, s)
    ensures Invariants(w, s)
  {
    hide ClockOk;
  }

  lemma ReachableKept(w: World, s: State)
    requires WellConfigured(w) && Reachable(w, s)
    ensures Invariants(w, s)
  {
    hide WellConfigured, ClockOk, Invariants, Init, AllowedRun, Run;
    var s0, es :| Init(w, s0) && AllowedRun(w, s0, es) && s == Run(w, s0, es);
    InitKept(w, s0);
    RunKept(w, s0, es);
  }

  // ---- the record over every step ----

  /** The origins of the rows of known tokens stay on record. */
  ghost predicate OriginsStay(w: World, s: State, s': State) {
    forall token :: token in s.log.seen && HashToken(w.lib, token) in s.log.origins ==>
      HashToken(w.lib, token) in s'.log.origins
      && s'.log.origins[HashToken(w.lib, token)] == s.log.origins[HashToken(w.lib, token)]
  }

  lemma StoringStays(w: World, s: State, s': State, g: Grant, at: Time, ttl: Time, token: string)
    requires HashInjective(w.lib) && StoredRow(w, s, s', g, at, ttl, token) && token !in s.log.seen
    ensures OriginsStay(w, s, s')
  {
    forall t | t in s.log.seen ensures HashToken(w.lib, t) != HashToken(w.lib, token) {
      if HashToken(w.lib, t) == HashToken(w.lib, token) { HashTokenInjective(w.lib, t, token); }
    }
    hide HashToken, OpaqueSession;
  }

  lemma IssueStays(w: World, s: State, s': State, job: nat, g: Grant, stage: Stage, random: seq<Byte>)
    requires HashInjective(w.lib) && Issued(w, s, s', job, g, stage, random) && (stage.Timed? ==> Encode(random) !in s.log.seen)
    ensures RecordGrows(s, s') && OriginsStay(w, s, s')
  {
    hide HashInjective, StoredRow, Follows, Encode, HashToken, MessageOf;
    if stage.Timed? {
      StoringStays(w, s, s', g, stage.at, stage.ttl, Encode(random));
    }
  }

  lemma RedeemStays(w: World, s: State, s': State, job: nat, x: Exchange, client: Client, ac: AuthCode)
    requires Redeemed(w, s, s', job, x, client, ac) && x.code !in s.log.redeemed
    ensures RecordGrows(s, s') && OriginsStay(w, s, s')
  {
    hide CheckExchange, Begin, HashToken;
  }

  lemma AdvanceStays(w: World, s: State, job: nat, random: seq<Byte>)
    requires HashInjective(w.lib) && Once(s) && (DrawsToken(s, job) ==> Encode(random) !in s.log.seen)
    ensures RecordGrows(s, AdvanceJob(w, s, job, random)) && OriginsStay(w, s, AdvanceJob(w, s, job, random))
  {
    hide Once, HashInjective, Issue, Redeem, RevokeForRefresh, Issued, Redeemed, RecordGrows, OriginsStay, Encode;
    if job in s.jobs {
      match s.jobs[job]
      case Looked(x, client, ac) =>
        RedeemEffect(w, s, job, x, client, ac);
        NotYetRedeemed(s, job, x, client, ac);
        RedeemStays(w, s, Redeem(w, s, job, x, client, ac), job, x, client, ac);
      case Validated(client, token, sess, root) =>
        RevokeRefreshEffect(w, s, job, client, token, sess, root);
        QuietStays(w, s, RevokeForRefresh(w, s, job, client, token, sess, root));
      case Issuing(g, resp, stage) =>
        IssueEffect(w, s, job, g, resp, stage, random);
        IssueStays(w, s, Issue(w, s, job, g, resp, stage, random), job, g, stage, random);
    } else {
      QuietStays(w, s, s);
    }
  }

  lemma QuietStays(w: World, s: State, s': State)
    requires s.now <= s'.now && s'.log.logins == s.log.logins && s'.log.redeemed == s.log.redeemed
    requires s'.log.origins == s.log.origins
    ensures RecordGrows(s, s') && OriginsStay(w, s, s')
  {
    hide HashToken;
  }

  lemma InsertStays(w: World, s: State, s': State, code: string, login: Login)
    requires Inserted(s, s', code, login) && code !in s.log.logins
    ensures RecordGrows(s, s') && OriginsStay(w, s, s')
  {
    hide HashToken;
  }

  lemma LogInStays(w: World, s: State, e: Event)
    requires Once(s) && e.LogIn? && Allowed(w, s, e)
    ensures RecordGrows(s, InsertCode(w, s, e)) && OriginsStay(w, s, InsertCode(w, s, e))
  {
    InsertEffect(w, s, e);
    assert Encode(e.random) !in s.log.logins;
    var s' := InsertCode(w, s, e);
    hide InsertCode, Once, NewAuthCode, ValidateAuthRequest, Encode, Inserted, RecordGrows, OriginsStay;
    if s' != s {
      var client, subject :|
        && ValidateAuthRequest(w.clients, e.query) == Ok(client)
        && w.authenticate(e.username, e.password) == Some(subject)
        && s'.now == e.expiryClock
        && Inserted(s, s', Encode(e.random),
                    Login(NewAuthCode(e.query, client, subject, e.authClock, e.expiryClock + w.cfg.authCodeTTL),
                          e.query, e.username, e.password, e.authClock, e.expiryClock));
      InsertStays(w, s, s', Encode(e.random),
                  Login(NewAuthCode(e.query, client, subject, e.authClock, e.expiryClock + w.cfg.authCodeTTL),
                        e.query, e.username, e.password, e.authClock, e.expiryClock));
    } else {
      QuietStays(w, s, s);
    }
  }

  lemma TakeStays(w: World, s: State, job: nat, x: Exchange)
    ensures RecordGrows(s, TakeCode(w, s, job, x)) && OriginsStay(w, s, TakeCode(w, s, job, x))
  {
    hide AuthenticateClient, Take, RecordGrows, OriginsStay;
    if AuthenticateClient(w.clients, x.credentials).Some? {
      TakeEffect(s, job, x, AuthenticateClient(w.clients, x.credentials).value);
    }
    QuietStays(w, s, TakeCode(w, s, job, x));
  }

  lemma ActStays(w: World, s: State, e: Event)
    requires HashInjective(w.lib) && Once(s) && Allowed(w, s, e)
    ensures RecordGrows(s, Act(w, s, e)) && OriginsStay(w, s, Act(w, s, e))
  {
    hide InsertCode, TakeCode, CheckRefresh, AdvanceJob, Background, Restarted, Once, HashInjective, RecordGrows, OriginsStay, Encode;
    match e
    case LogIn(_, _, _, _, _, _) => LogInStays(w, s, e);
    case BeginExchange(job, x) => TakeStays(w, s, job, x);
    case BeginRefresh(job, token, credentials) =>
      CheckEffect(w, s, job, token, credentials);
      QuietStays(w, s, CheckRefresh(w, s, job, token, credentials));
    case Advance(job, random, _) => AdvanceStays(w, s, job, random);
    case Restart(ring) =>
      RestartEffect(s, ring);
      QuietStays(w, s, Restarted(s, ring));
    case _ =>
      BackgroundEffect(w, s, e);
      QuietStays(w, s, Background(w, s, e));
  }

  lemma PersistedStays(w: World, s: State, acted: State)
    requires RecordGrows(s, acted) && OriginsStay(w, s, acted)
    ensures RecordGrows(s, Persisted(acted)) && OriginsStay(w, s, Persisted(acted))
  {
    hide HashToken;
  }

  lemma StepStays(w: World, s: State, e: Event)
    requires HashInjective(w.lib) && Once(s) && Allowed(w, s, e)
    ensures RecordGrows(s, Step(w, s, e)) && OriginsStay(w, s, Step(w, s, e))
  {
    StepIs(w, s, e);
    ActStays(w, s, e);
    hide Act, Step, Saves, RecordGrows, OriginsStay, Once, HashInjective;
    if Saves(w, s, e) { PersistedStays(w, s, Act(w, s, e)); }
  }

  // ---- the theorems ----

  /** A login and its redemption, as RFC 6749 section 4.1 and RFC 7636 section 4.6 want them. */
  ghost predicate ProperLogin(w: World, s: State, root: string) {
    && root in s.log.logins && root in s.log.redeemed
    && LoginOk(w, s, s.log.logins[root])
    && RedemptionOk(w, s, s.log.logins[root].code, s.log.redeemed[root])
  }

  lemma DescendsProper(w: World, s: State, root: string, subject: string, clientID: string, scope: string)
    requires Traced(w, s) && Descends(s, root, subject, clientID, scope)
    ensures ProperLogin(w, s, root)
  {
    hide LoginOk, RedemptionOk, ClockOk, CodeFrom, JobFrom, RowFrom, MintedFrom;
    assert RedeemedOk(w, s, root);
  }

  /** Every table row, refresh and stateful access alike, carries the subject, client and scope of a proper login. */
  lemma RowHasLogin(w: World, s: State, key: string)
    requires WellConfigured(w) && Reachable(w, s) && key in s.table
    ensures key in s.log.origins && ProperLogin(w, s, s.log.origins[key].root)
    ensures var code := s.log.logins[s.log.origins[key].root].code;
            var row := s.table[key].session;
            row.subject == code.subject && row.clientID == code.clientID && row.scope == code.scope
  {
    ReachableKept(w, s);
    assert RowFrom(s, key, s.table[key].session);
    var row := s.table[key].session;
    hide Traced, Once, WellConfigured, Reachable, ProperLogin, InRange;
    DescendsProper(w, s, s.log.origins[key].root, row.subject, row.clientID, row.scope);
  }

  /** The record behind an accepted JWT. */
  lemma AcceptedMinted(w: World, s: State, token: string, now: Time) returns (n: (KeyPair, string))
    requires JsonRoundTrips(w.lib) && (forall n :: n in s.notary ==> MintedFrom(w, s, n, s.notary[n]))
    requires ValidateJwt(w.lib, Signatures(s), s.ring, token, now).Some?
    ensures n in s.notary && |Text.Split(token)| == 3 && n.1 == Text.Split(token)[0] + "." + Text.Split(token)[1]
    ensures ValidateJwt(w.lib, Signatures(s), s.ring, token, now) == Some(ClaimsSession(s.notary[n].draft.claims))
  {
    var k := Find(s.ring, PeekKid(w.lib, token).value.kid).value;
    var t := SplitToken(w.lib, token).value;
    n := (k.pair, t.input);
    assert MintedFrom(w, s, n, s.notary[n]);
    var m := s.notary[n];
    hide Find, PeekKid, SplitToken, Sound, GrantFrom, ClaimsSession, SigningInput;
    AcceptedMessage(w.lib, Signatures(s), k.alg, k.pair, token, now, HeaderFor(m.key), m.draft.claims);
  }

  /**
   The first two segments of every JWT that is accepted, at this or any other reading of the clock,
   were signed for a proper login; the session reported carries that login's subject and client,
   and its scope, or none for an ID token.
   */
  lemma AcceptedJwtHasLogin(w: World, s: State, token: string, now: Time)
    requires WellConfigured(w) && Reachable(w, s)
    requires ValidateJwt(w.lib, Signatures(s), s.ring, token, now).Some?
    ensures exists n ::
      && n in s.notary && |Text.Split(token)| == 3 && n.1 == Text.Split(token)[0] + "." + Text.Split(token)[1]
      && JwtOfLogin(w, s, s.notary[n], ValidateJwt(w.lib, Signatures(s), s.ring, token, now).value)
  {
    ReachableKept(w, s);
    hide Traced, Once, WellConfigured, Reachable, ProperLogin, ValidateJwt, MessageOf, DraftFrom, ClaimsSession;
    assert forall n :: n in s.notary ==> MintedFrom(w, s, n, s.notary[n]) by { TracedMinted(w, s); }
    assert JsonRoundTrips(w.lib);
    var n := AcceptedMinted(w, s, token, now);
    MintedLogin(w, s, n, s.notary[n]);
    hide JwtOfLogin;
    assert JwtOfLogin(w, s, s.notary[n], ValidateJwt(w.lib, Signatures(s), s.ring, token, now).value);
  }

  lemma TracedMinted(w: World, s: State)
    requires Traced(w, s)
    ensures forall n :: n in s.notary ==> MintedFrom(w, s, n, s.notary[n])
  {
    hide MintedFrom, ClockOk, LoginOk, RedeemedOk, PresentationOk, CodeFrom, JobFrom, RowFrom;
  }

  lemma MintedLogin(w: World, s: State, n: (KeyPair, string), m: Minted)
    requires Traced(w, s) && MintedFrom(w, s, n, m)
    ensures JwtOfLogin(w, s, m, ClaimsSession(m.draft.claims))
  {
    DescendsProper(w, s, m.g.root, m.g.subject, m.g.client.id, m.g.scope);
    hide Traced, ProperLogin, Sound, IdExtras, MessageOf;
  }

  ghost predicate JwtOfLogin(w: World, s: State, m: Minted, sess: Session) {
    && ProperLogin(w, s, m.g.root) && DraftFrom(w, m.g, m.draft)
    && sess.subject == s.log.logins[m.g.root].code.subject
    && sess.clientID == s.log.logins[m.g.root].code.clientID
    && sess.scope == (if m.draft.isId then "" else s.log.logins[m.g.root].code.scope)
  }
}
