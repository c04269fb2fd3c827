/**
 What clients receive: in every reachable state, every response ever sent answers the grant of a
 redeemed login, its handler's own, with exactly the tokens the scope asks for, each of them a row
 or a signature of that grant.
 */
module Responses {
  import opened Wrappers
  import opened Clock
  import opened Base64Url
  import opened Primitives
  import opened KeyRing
  import opened Sessions
  import opened Stores
  import opened Grants
  import opened Sidecar
  import opened SingleUse
  import opened Provenance
  import opened OpaqueTokens
  import opened KeyCoverage

  // ---- tokens of a grant ----

  /** The draft is the one issuing an ID token, or an access token, makes of the grant at its clock reading. */
  ghost predicate MadeFor(w: World, g: Grant, d: Draft) {
    if d.isId then d == IdDraft(w, g, d.readAt) else exists random :: d == AccessDraft(w, g, d.readAt, random)
  }

  /** This signature is one the server has made for the grant, over claims of the grant at a clock reading that has been. */
  ghost predicate SignedFor(w: World, s: State, g: Grant, m: Minted, isId: bool) {
    && m in s.log.minted && m.g == g && m.draft.isId == isId && m.draft.readAt <= s.now
    && MadeFor(w, g, m.draft) && DraftFrom(w, g, m.draft)
  }

  /** A JWT with a signature on record that was made for the grant. */
  ghost predicate JwtFor(w: World, s: State, g: Grant, token: string, isId: bool) {
    exists m: Minted :: SignedFor(w, s, g, m, isId) && token == TokenOf(w, m.key, m.draft)
  }

  /** An opaque token whose row was stored for the grant's login. */
  ghost predicate RowFor(w: World, s: State, g: Grant, token: string) {
    var key := HashToken(w.lib, token);
    token in s.log.seen && key in s.log.origins && s.log.origins[key] == Origin(token, g.root)
  }

  /** A stateful access token: a row on record, and the lifetime of stateful sessions. */
  ghost predicate RowAccess(w: World, s: State, g: Grant, resp: TokenSet) {
    RowFor(w, s, g, resp.access) && resp.expiresIn == ExpiresIn(w.cfg.statefulTTL)
  }

  /** A stateless one: a signature on record, and the lifetime of stateless sessions. */
  ghost predicate JwtAccess(w: World, s: State, g: Grant, resp: TokenSet) {
    JwtFor(w, s, g, resp.access, false) && resp.expiresIn == ExpiresIn(w.cfg.statelessTTL)
  }

  /** The kind of access token the client is registered for, by the word; any other word leaves it to the configured default. */
  ghost predicate AccessFor(w: World, s: State, g: Grant, resp: TokenSet) {
    if g.client.sessionMode == "stateful" then RowAccess(w, s, g, resp)
    else if g.client.sessionMode == "stateless" then JwtAccess(w, s, g, resp)
    else
      match w.cfg.defaultMode
      case Stateful => RowAccess(w, s, g, resp)
      case Stateless => JwtAccess(w, s, g, resp)
      case Unknown(_) => false
  }

  /** An ID token exactly for `openid`. */
  ghost predicate IdFor(w: World, s: State, g: Grant, resp: TokenSet) {
    && (resp.idToken.Some? <==> HasScope(g.scope, "openid"))
    && (resp.idToken.Some? ==> JwtFor(w, s, g, resp.idToken.value, true))
  }

  /** A refresh token exactly for `offline_access`. */
  ghost predicate RefreshFor(w: World, s: State, g: Grant, resp: TokenSet) {
    && (resp.refresh.Some? <==> HasScope(g.scope, "offline_access"))
    && (resp.refresh.Some? ==> RowFor(w, s, g, resp.refresh.value))
  }

  // ---- responses in the making ----

  /** The access token is still to come. */
  predicate BeforeAccess(st: Stage) {
    st.AtAccess? || (st.Drafted? && !st.draft.isId) || (st.Holding? && !st.draft.isId) || (st.Timed? && !st.isRefresh)
  }

  /** So is the ID token. */
  predicate BeforeId(st: Stage) {
    BeforeAccess(st) || st.AtId? || st.Drafted? || st.Holding?
  }

  ghost predicate SoFar(w: World, s: State, g: Grant, resp: TokenSet, st: Stage) {
    && resp.scope == g.scope
    && (BeforeAccess(st) || AccessFor(w, s, g, resp))
    && (if BeforeId(st) then resp.idToken == None else IdFor(w, s, g, resp))
    && (if st.Complete? then RefreshFor(w, s, g, resp) else resp.refresh == None)
    && (st.Timed? && st.isRefresh ==> HasScope(g.scope, "offline_access"))
    && (st.Drafted? && st.draft.isId ==> HasScope(g.scope, "openid"))
    && (st.Holding? && st.draft.isId ==> HasScope(g.scope, "openid"))
    && (st.Drafted? ==> MadeFor(w, g, st.draft)) && (st.Holding? ==> MadeFor(w, g, st.draft))
  }

  /** What a handler that redeemed a code issues for: that code's login, with the nonce asked for and the time of the login. */
  ghost predicate FromCode(s: State, j: nat, g: Grant) {
    && j in s.log.started && s.log.started[j] == g.root && g.root in s.log.logins
    && g.nonce == s.log.logins[g.root].query.nonce && g.authTime == s.log.logins[g.root].at
  }

  /** What any other handler issues for: the refresh token it presented, with no nonce and the time its row was issued. */
  ghost predicate FromRefresh(s: State, j: nat, g: Grant) {
    && j !in s.log.started && j in s.log.presented
    && g.client == s.log.presented[j].client && g.nonce == "" && g.authTime == s.log.presented[j].sess.issuedAt
  }

  ghost predicate OwnRoot(s: State, j: nat, job: Job) {
    && (job.Validated? ==>
          && j !in s.log.started && j in s.log.presented
          && s.log.presented[j].client == job.client && s.log.presented[j].sess == job.sess)
    && (job.Issuing? ==> FromCode(s, j, job.g) || FromRefresh(s, j, job.g))
  }

  ghost predicate JobAnswers(w: World, s: State, j: nat)
    requires j in s.jobs
  {
    OwnRoot(s, j, s.jobs[j]) && (s.jobs[j].Issuing? ==> SoFar(w, s, s.jobs[j].g, s.jobs[j].resp, s.jobs[j].stage))
  }

  ghost predicate Answers(w: World, s: State, j: nat, r: Response) {
    && Descends(s, r.g.root, r.g.subject, r.g.client.id, r.g.scope) && IsClient(w, r.g.client)
    && r.tokens.scope == r.g.scope
    && AccessFor(w, s, r.g, r.tokens) && IdFor(w, s, r.g, r.tokens) && RefreshFor(w, s, r.g, r.tokens)
    && (FromCode(s, j, r.g) || FromRefresh(s, j, r.g))
  }

  /** The record of a handler's code or presentation is as it was. */
  ghost predicate SameRecord(s: State, s': State, j: nat) {
    && (j in s'.log.started <==> j in s.log.started) && (j in s.log.started ==> s'.log.started[j] == s.log.started[j])
    && (j in s'.log.presented <==> j in s.log.presented) && (j in s.log.presented ==> s'.log.presented[j] == s.log.presented[j])
  }

  ghost predicate Answered(w: World, s: State) {
    && (forall j :: j in s.jobs ==> JobAnswers(w, s, j))
    && (forall j :: j in s.delivered ==> j in s.log.used && j !in s.jobs && Answers(w, s, j, s.delivered[j]))
  }

  // ---- what persists ----

  ghost predicate Persists(w: World, s: State, s': State) {
    && RecordGrows(s, s') && OriginsStay(w, s, s') && s.log.seen <= s'.log.seen && s.log.used <= s'.log.used
    && s.log.minted <= s'.log.minted
  }

  lemma RowPersists(w: World, s: State, s': State, g: Grant, token: string)
    requires Persists(w, s, s') && RowFor(w, s, g, token)
    ensures RowFor(w, s', g, token)
  {
    hide HashToken;
  }

  lemma JwtPersists(w: World, s: State, s': State, g: Grant, token: string, isId: bool)
    requires Persists(w, s, s') && JwtFor(w, s, g, token, isId)
    ensures JwtFor(w, s', g, token, isId)
  {
    hide OriginsStay, MadeFor, DraftFrom, TokenOf;
    var m :| SignedFor(w, s, g, m, isId) && token == TokenOf(w, m.key, m.draft);
    assert SignedFor(w, s', g, m, isId);
  }

  lemma AccessPersists(w: World, s: State, s': State, g: Grant, resp: TokenSet)
    requires Persists(w, s, s') && AccessFor(w, s, g, resp)
    ensures AccessFor(w, s', g, resp)
  {
    hide RowFor, JwtFor, Persists, ExpiresIn;
    if RowFor(w, s, g, resp.access) { RowPersists(w, s, s', g, resp.access); }
    if JwtFor(w, s, g, resp.access, false) { JwtPersists(w, s, s', g, resp.access, false); }
  }

  lemma IdPersists(w: World, s: State, s': State, g: Grant, resp: TokenSet)
    requires Persists(w, s, s') && IdFor(w, s, g, resp)
    ensures IdFor(w, s', g, resp)
  {
    hide JwtFor, Persists, HasScope;
    if resp.idToken.Some? { JwtPersists(w, s, s', g, resp.idToken.value, true); }
  }

  lemma RefreshPersists(w: World, s: State, s': State, g: Grant, resp: TokenSet)
    requires Persists(w, s, s') && RefreshFor(w, s, g, resp)
    ensures RefreshFor(w, s', g, resp)
  {
    hide RowFor, Persists, HasScope;
    if resp.refresh.Some? { RowPersists(w, s, s', g, resp.refresh.value); }
  }

  lemma SoFarPersists(w: World, s: State, s': State, g: Grant, resp: TokenSet, st: Stage)
    requires Persists(w, s, s') && SoFar(w, s, g, resp, st)
    ensures SoFar(w, s', g, resp, st)
  {
    hide AccessFor, RefreshFor, IdFor, Persists, HasScope, MadeFor;
    if !BeforeAccess(st) { AccessPersists(w, s, s', g, resp); }
    if !BeforeId(st) { IdPersists(w, s, s', g, resp); }
    if st.Complete? { RefreshPersists(w, s, s', g, resp); }
  }

  lemma AnswerPersists(w: World, s: State, s': State, j: nat, r: Response)
    requires Persists(w, s, s') && Answers(w, s, j, r)
    requires SameRecord(s, s', j)
    ensures Answers(w, s', j, r)
  {
    AccessPersists(w, s, s', r.g, r.tokens);
    IdPersists(w, s, s', r.g, r.tokens);
    RefreshPersists(w, s, s', r.g, r.tokens);
    hide AccessFor, RefreshFor, IdFor, OriginsStay;
  }

  // ---- each step ----

  /** At most one handler moved, and it alone may have redeemed or responded. */
  ghost predicate OneMoved(s: State, s': State, job: nat) {
    && (forall j :: j in s'.jobs && j != job ==> j in s.jobs && s'.jobs[j] == s.jobs[j])
    && (forall j :: j != job ==> SameRecord(s, s', j))
    && (forall j :: j in s'.delivered && j != job ==> j in s.delivered && s'.delivered[j] == s.delivered[j])
  }

  lemma MovedAnswers(w: World, s: State, s': State, job: nat)
    requires Answered(w, s) && Persists(w, s, s') && OneMoved(s, s', job)
    requires job in s'.jobs ==> JobAnswers(w, s', job) && job !in s'.delivered
    requires job in s'.delivered ==> job in s'.log.used && Answers(w, s', job, s'.delivered[job])
    ensures Answered(w, s')
  {
    hide SoFar, Answers, Persists;
    forall j | j in s'.jobs && j != job ensures JobAnswers(w, s', j) {
      assert JobAnswers(w, s, j) && SameRecord(s, s', j);
      RootStays(w, s, s', j, s.jobs[j]);
      if s.jobs[j].Issuing? { SoFarPersists(w, s, s', s.jobs[j].g, s.jobs[j].resp, s.jobs[j].stage); }
    }
    forall j | j in s'.delivered && j != job ensures j in s'.log.used && j !in s'.jobs && Answers(w, s', j, s'.delivered[j]) {
      assert SameRecord(s, s', j);
      AnswerPersists(w, s, s', j, s.delivered[j]);
      assert s.log.used <= s'.log.used by { UsedPersists(w, s, s'); }
    }
  }

  lemma RootStays(w: World, s: State, s': State, j: nat, job: Job)
    requires OwnRoot(s, j, job) && Persists(w, s, s') && SameRecord(s, s', j)
    ensures OwnRoot(s', j, job)
  {
    hide OriginsStay;
  }

  lemma UsedPersists(w: World, s: State, s': State)
    requires Persists(w, s, s')
    ensures s.log.used <= s'.log.used
  {
  }

  /** Steps that leave every handler, redemption and response as it was, or drop handlers. */
  lemma QuietAnswers(w: World, s: State, s': State)
    requires Answered(w, s) && Persists(w, s, s')
    requires forall j :: j in s'.jobs ==> j in s.jobs && s'.jobs[j] == s.jobs[j]
    requires s'.log.started == s.log.started && s'.log.presented == s.log.presented && s'.delivered == s.delivered
    ensures Answered(w, s')
  {
    hide SoFar, Answers, Persists;
    forall j | j in s'.jobs ensures JobAnswers(w, s', j) {
      assert JobAnswers(w, s, j);
      RootStays(w, s, s', j, s.jobs[j]);
      if s.jobs[j].Issuing? { SoFarPersists(w, s, s', s.jobs[j].g, s.jobs[j].resp, s.jobs[j].stage); }
    }
    forall j | j in s'.delivered ensures j in s'.log.used && j !in s'.jobs && Answers(w, s', j, s'.delivered[j]) {
      AnswerPersists(w, s, s', j, s.delivered[j]);
      UsedPersists(w, s, s');
    }
  }

  lemma BeginAnswers(w: World, s: State, g: Grant)
    ensures Begin(g).Issuing? && SoFar(w, s, g, Begin(g).resp, Begin(g).stage) && Begin(g).g == g
  {
    hide AccessFor, IdFor, RefreshFor, HasScope;
  }

  // ---- issuing ----

  /** Which access tokens suit the client, by the mode the server computes for it. */
  lemma AccessByMode(w: World, s: State, g: Grant, resp: TokenSet)
    requires (ModeFor(w.cfg, g.client) == Stateful && RowFor(w, s, g, resp.access))
             || (ModeFor(w.cfg, g.client) == Stateless && JwtFor(w, s, g, resp.access, false))
    requires resp.expiresIn == ExpiresIn(AccessTTL(w.cfg, ModeFor(w.cfg, g.client)))
    ensures AccessFor(w, s, g, resp)
  {
    hide RowFor, JwtFor, ExpiresIn;
  }

  lemma SignSoFar(w: World, s: State, s': State, g: Grant, resp: TokenSet, d: Draft, k: Key)
    requires DraftFrom(w, g, d) && d.readAt <= s'.now
    requires SoFar(w, s, g, resp, Holding(d, k)) && Persists(w, s, s') && Minted(k, d, g) in s'.log.minted
    requires !d.isId ==> ModeFor(w.cfg, g.client) == Stateless
    ensures if d.isId then SoFar(w, s', g, resp.(idToken := Some(TokenOf(w, k, d))), AtRefresh)
            else SoFar(w, s', g, WithAccess(w, g, resp, TokenOf(w, k, d)), AtId)
  {
    SoFarPersists(w, s, s', g, resp, Holding(d, k));
    MadeSoFar(w, s, g, resp, d, k);
    hide Persists, HasScope, MadeFor, DraftFrom, TokenOf, SoFar, ModeFor, AccessFor, WithAccess;
    assert SignedFor(w, s', g, Minted(k, d, g), d.isId);
    if d.isId {
      IdArrives(w, s', g, resp, d, k, TokenOf(w, k, d));
    } else {
      SignedAccess(w, s', g, resp, TokenOf(w, k, d));
      AccessArrives(w, s', g, resp, Holding(d, k), TokenOf(w, k, d));
    }
  }

  lemma MadeSoFar(w: World, s: State, g: Grant, resp: TokenSet, d: Draft, k: Key)
    requires SoFar(w, s, g, resp, Holding(d, k))
    ensures MadeFor(w, g, d)
  {
    hide AccessFor, IdFor, RefreshFor, HasScope, MadeFor;
  }

  lemma SignedAccess(w: World, s: State, g: Grant, resp: TokenSet, token: string)
    requires ModeFor(w.cfg, g.client) == Stateless && JwtFor(w, s, g, token, false)
    ensures AccessFor(w, s, g, WithAccess(w, g, resp, token))
  {
    hide JwtFor, AccessFor, ModeFor, AccessTTL, ExpiresIn;
    AccessByMode(w, s, g, WithAccess(w, g, resp, token));
  }

  lemma IdArrives(w: World, s: State, g: Grant, resp: TokenSet, d: Draft, k: Key, token: string)
    requires SoFar(w, s, g, resp, Holding(d, k)) && d.isId && JwtFor(w, s, g, token, true)
    ensures SoFar(w, s, g, resp.(idToken := Some(token)), AtRefresh)
  {
    hide AccessFor, JwtFor, RefreshFor, HasScope, MadeFor, ExpiresIn;
    assert AccessFor(w, s, g, resp);
    assert AccessFor(w, s, g, resp.(idToken := Some(token))) by { SameAccess(w, s, g, resp, resp.(idToken := Some(token))); }
  }

  lemma SameAccess(w: World, s: State, g: Grant, a: TokenSet, b: TokenSet)
    requires AccessFor(w, s, g, a) && a.access == b.access && a.expiresIn == b.expiresIn
    ensures AccessFor(w, s, g, b)
  {
    hide RowFor, JwtFor, ExpiresIn;
  }

  lemma AccessArrives(w: World, s: State, g: Grant, resp: TokenSet, stage: Stage, token: string)
    requires SoFar(w, s, g, resp, stage) && BeforeAccess(stage)
    requires AccessFor(w, s, g, WithAccess(w, g, resp, token))
    ensures SoFar(w, s, g, WithAccess(w, g, resp, token), AtId)
  {
    hide AccessFor, IdFor, RefreshFor, HasScope, ModeFor, AccessTTL, ExpiresIn, MadeFor;
  }

  lemma RefreshArrives(w: World, s: State, g: Grant, resp: TokenSet, stage: Stage, token: string)
    requires stage.Timed? && stage.isRefresh && SoFar(w, s, g, resp, stage) && RowFor(w, s, g, token)
    ensures SoFar(w, s, g, resp.(refresh := Some(token)), Complete)
  {
    hide RowFor, JwtFor, HasScope, ModeFor, AccessTTL, ExpiresIn, MadeFor;
  }

  lemma StoreSoFar(w: World, s: State, s': State, g: Grant, resp: TokenSet, stage: Stage, token: string)
    requires stage.Timed? && SoFar(w, s, g, resp, stage) && Persists(w, s, s')
    requires StoredRow(w, s, s', g, stage.at, stage.ttl, token)
    requires !stage.isRefresh ==> ModeFor(w.cfg, g.client) == Stateful
    ensures if stage.isRefresh then SoFar(w, s', g, resp.(refresh := Some(token)), Complete)
            else SoFar(w, s', g, WithAccess(w, g, resp, token), AtId)
  {
    SoFarPersists(w, s, s', g, resp, stage);
    assert RowFor(w, s', g, token) by { hide HashToken, OpaqueSession, SoFar, Persists; }
    hide SoFar, HasScope, ModeFor, AccessTTL, ExpiresIn, RowFor, Persists, StoredRow, MadeFor, AccessFor;
    if stage.isRefresh {
      RefreshArrives(w, s', g, resp, stage, token);
    } else {
      AccessByMode(w, s', g, WithAccess(w, g, resp, token));
      AccessArrives(w, s', g, resp, stage, token);
    }
  }

  lemma DraftsMade(w: World, g: Grant, now: Time, random: seq<Byte>)
    ensures MadeFor(w, g, AccessDraft(w, g, now, random)) && MadeFor(w, g, IdDraft(w, g, now))
  {
    hide SessionClaims, IdClaims, Encode;
  }

  /** The stages that only lead on, as the scope says. */
  lemma AccessMoves(w: World, s: State, g: Grant, resp: TokenSet, stage: Stage, now: Time, random: seq<Byte>, ttl: Time)
    requires SoFar(w, s, g, resp, stage) && stage.AtAccess?
    ensures SoFar(w, s, g, resp, Drafted(AccessDraft(w, g, now, random))) && SoFar(w, s, g, resp, Timed(now, ttl, false))
  {
    DraftsMade(w, g, now, random);
    assert !AccessDraft(w, g, now, random).isId;
    hide AccessFor, IdFor, RefreshFor, HasScope, AccessDraft, MadeFor;
  }

  lemma IdMoves(w: World, s: State, g: Grant, resp: TokenSet, stage: Stage, now: Time)
    requires SoFar(w, s, g, resp, stage) && stage.AtId?
    ensures SoFar(w, s, g, resp, if HasScope(g.scope, "openid") then Drafted(IdDraft(w, g, now)) else AtRefresh)
  {
    DraftsMade(w, g, now, []);
    assert IdDraft(w, g, now).isId;
    hide AccessFor, JwtFor, RefreshFor, HasScope, IdDraft, MadeFor;
  }

  lemma RefreshMoves(w: World, s: State, g: Grant, resp: TokenSet, stage: Stage, now: Time, ttl: Time)
    requires SoFar(w, s, g, resp, stage) && stage.AtRefresh?
    ensures SoFar(w, s, g, resp, if HasScope(g.scope, "offline_access") then Timed(now, ttl, true) else Complete)
  {
    hide AccessFor, IdFor, RowFor, HasScope;
  }

  lemma DraftMoves(w: World, s: State, g: Grant, resp: TokenSet, d: Draft, k: Key)
    requires SoFar(w, s, g, resp, Drafted(d))
    ensures SoFar(w, s, g, resp, Holding(d, k))
  {
    hide AccessFor, IdFor, RefreshFor, HasScope, MadeFor;
  }

  /** What a step of issuing leaves: the handler further on, or gone, having responded only when complete. */
  ghost predicate GoesOn(w: World, s: State, s': State, job: nat, g: Grant, resp: TokenSet, stage: Stage) {
    && (job in s'.jobs ==> s'.jobs[job].Issuing? && s'.jobs[job].g == g && SoFar(w, s', g, s'.jobs[job].resp, s'.jobs[job].stage)
                           && s'.delivered == s.delivered)
    && (job !in s'.jobs ==> s'.delivered == s.delivered || (stage.Complete? && s'.delivered == s.delivered[job := Response(g, resp)]))
  }

  lemma StageGoesOn(w: World, s: State, job: nat, g: Grant, resp: TokenSet, stage: Stage, next: Stage)
    ensures SoFar(w, SetStage(s, job, g, resp, next), g, resp, next) ==> GoesOn(w, s, SetStage(s, job, g, resp, next), job, g, resp, stage)
    ensures GoesOn(w, s, Drop(s, job), job, g, resp, stage)
    ensures stage.Complete? ==> GoesOn(w, s, Respond(s, job, g, resp), job, g, resp, stage)
  {
    hide SoFar;
  }

  lemma SignGoesOn(w: World, s: State, job: nat, g: Grant, resp: TokenSet, d: Draft, k: Key)
    requires var s' := SignDraft(w, s, job, g, resp, d, k);
             if d.isId then SoFar(w, s', g, resp.(idToken := Some(TokenOf(w, k, d))), AtRefresh)
             else SoFar(w, s', g, WithAccess(w, g, resp, TokenOf(w, k, d)), AtId)
    ensures GoesOn(w, s, SignDraft(w, s, job, g, resp, d, k), job, g, resp, Holding(d, k))
  {
    hide SoFar, TokenOf, MessageOf, WithAccess;
  }

  lemma StoreGoesOn(w: World, s: State, job: nat, g: Grant, resp: TokenSet, stage: Stage, token: string)
    requires stage.Timed?
    requires var s' := StoreRow(w, s, job, g, resp, stage.at, stage.ttl, stage.isRefresh, token);
             if stage.isRefresh then SoFar(w, s', g, resp.(refresh := Some(token)), Complete)
             else SoFar(w, s', g, WithAccess(w, g, resp, token), AtId)
    ensures GoesOn(w, s, StoreRow(w, s, job, g, resp, stage.at, stage.ttl, stage.isRefresh, token), job, g, resp, stage)
  {
    hide SoFar, HashToken, OpaqueSession, WithAccess;
  }

  lemma MovesOn(w: World, s: State, job: nat, g: Grant, resp: TokenSet, stage: Stage, random: seq<Byte>)
    requires SoFar(w, s, g, resp, stage) && !stage.Holding? && !stage.Timed?
    requires Persists(w, s, Issue(w, s, job, g, resp, stage, random))
    ensures GoesOn(w, s, Issue(w, s, job, g, resp, stage, random), job, g, resp, stage)
  {
    var s' := Issue(w, s, job, g, resp, stage, random);
    SoFarPersists(w, s, s', g, resp, stage);
    hide SoFar, GoesOn, SetStage, Drop, Respond, SignDraft, StoreRow, AccessDraft, IdDraft, HasScope, ModeFor, Encode, Persists;
    forall next
      ensures SoFar(w, SetStage(s, job, g, resp, next), g, resp, next) ==> GoesOn(w, s, SetStage(s, job, g, resp, next), job, g, resp, stage)
    {
      StageGoesOn(w, s, job, g, resp, stage, next);
    }
    StageGoesOn(w, s, job, g, resp, stage, stage);
    match stage
    case AtAccess => AccessMoves(w, s', g, resp, stage, s.now, random, w.cfg.statefulTTL);
    case AtId => IdMoves(w, s', g, resp, stage, s.now);
    case AtRefresh => RefreshMoves(w, s', g, resp, stage, s.now, w.cfg.refreshTTL);
    case Drafted(d) => DraftMoves(w, s', g, resp, d, s.ring.active);
    case _ =>
  }

  /** One step of issuing adds what the scope asks for, and sends only what is complete. */
  lemma IssueSoFar(w: World, s: State, job: nat, g: Grant, resp: TokenSet, stage: Stage, random: seq<Byte>)
    requires SoFar(w, s, g, resp, stage) && ModeSuits(w, g, stage)
    requires stage.Holding? ==> DraftFrom(w, g, stage.draft) && stage.draft.readAt <= s.now
    requires Persists(w, s, Issue(w, s, job, g, resp, stage, random))
    ensures GoesOn(w, s, Issue(w, s, job, g, resp, stage, random), job, g, resp, stage)
  {
    var s' := Issue(w, s, job, g, resp, stage, random);
    if stage.Holding? {
      IssueEffect(w, s, job, g, resp, stage, random);
      SignSoFar(w, s, s', g, resp, stage.draft, stage.key);
      SignGoesOn(w, s, job, g, resp, stage.draft, stage.key);
    } else if stage.Timed? {
      IssueEffect(w, s, job, g, resp, stage, random);
      StoreSoFar(w, s, s', g, resp, stage, Encode(random));
      StoreGoesOn(w, s, job, g, resp, stage, Encode(random));
    } else {
      MovesOn(w, s, job, g, resp, stage, random);
    }
    hide SoFar, GoesOn, SetStage, Drop, Respond, SignDraft, StoreRow, ModeFor, Encode, Persists, ModeSuits, TokenOf, WithAccess, Issued, DraftFrom;
  }

  lemma IssuingFacts(w: World, s: State, job: nat)
    requires Invariants(w, s) && KeysCovered(w, s) && job in s.jobs && s.jobs[job].Issuing?
    ensures GrantFrom(w, s, s.jobs[job].g)
    ensures ModeSuits(w, s.jobs[job].g, s.jobs[job].stage) && job in s.log.used
    ensures var stage := s.jobs[job].stage; stage.Holding? ==> DraftFrom(w, s.jobs[job].g, stage.draft) && stage.draft.readAt <= s.now
  {
    assert JobFrom(w, s, s.jobs[job]) && JobCovered(w, s, job);
    hide ClockOk, LoginOk, RedeemedOk, CodeFrom, RowFrom, MintedFrom, RowsNamed, GrantFrom, DraftFrom, ModeSuits, Ordered, OwnsItsCode,
      MintedCovered, Covered;
  }

  lemma CompleteAnswers(w: World, s: State, s': State, job: nat, g: Grant, resp: TokenSet)
    requires Persists(w, s, s') && GrantFrom(w, s, g) && SoFar(w, s, g, resp, Complete)
    requires OwnRoot(s', job, Issuing(g, resp, Complete))
    ensures Answers(w, s', job, Response(g, resp))
  {
    AccessPersists(w, s, s', g, resp);
    IdPersists(w, s, s', g, resp);
    RefreshPersists(w, s, s', g, resp);
    hide AccessFor, IdFor, RefreshFor, OriginsStay, IsClient, InRange;
  }

  lemma IssuedMoves(w: World, s: State, s': State, job: nat, g: Grant, resp: TokenSet, stage: Stage, random: seq<Byte>)
    requires job in s.jobs && s.jobs[job] == Issuing(g, resp, stage)
    requires Issued(w, s, s', job, g, stage, random) && GoesOn(w, s, s', job, g, resp, stage)
    ensures OneMoved(s, s', job) && s'.log.started == s.log.started && s'.log.presented == s.log.presented && s'.log.used == s.log.used
  {
    hide SoFar, Follows, StoredRow, SameRows, MessageOf, Encode;
  }

  lemma MovedOn(w: World, s: State, s': State, job: nat, g: Grant, resp: TokenSet, stage: Stage)
    requires Answered(w, s) && Persists(w, s, s') && OneMoved(s, s', job)
    requires s'.log.started == s.log.started && s'.log.presented == s.log.presented
    requires job in s.jobs && s.jobs[job] == Issuing(g, resp, stage) && job in s'.log.used && GrantFrom(w, s, g)
    requires GoesOn(w, s, s', job, g, resp, stage)
    ensures Answered(w, s')
  {
    assert JobAnswers(w, s, job);
    RootStays(w, s, s', job, s.jobs[job]);
    if s'.delivered != s.delivered {
      CompleteAnswers(w, s, s', job, g, resp);
    }
    hide SoFar, Answers, Persists, OneMoved;
    MovedAnswers(w, s, s', job);
  }

  lemma IssueAnswers(w: World, s: State, job: nat, g: Grant, resp: TokenSet, stage: Stage, random: seq<Byte>)
    requires Answered(w, s) && Invariants(w, s) && KeysCovered(w, s) && job in s.jobs && s.jobs[job] == Issuing(g, resp, stage)
    requires Persists(w, s, Issue(w, s, job, g, resp, stage, random))
    ensures Answered(w, Issue(w, s, job, g, resp, stage, random))
  {
    var s' := Issue(w, s, job, g, resp, stage, random);
    IssuingFacts(w, s, job);
    assert SoFar(w, s, g, resp, stage) by { assert JobAnswers(w, s, job); hide SoFar, Invariants, KeysCovered, Persists; }
    hide Issue, Issued, SoFar, Answered, Invariants, KeysCovered, Persists, Encode, ModeSuits, OneMoved, GoesOn, GrantFrom, DraftFrom;
    IssueSoFar(w, s, job, g, resp, stage, random);
    IssueEffect(w, s, job, g, resp, stage, random);
    IssuedMoves(w, s, s', job, g, resp, stage, random);
    MovedOn(w, s, s', job, g, resp, stage);
  }

  // ---- the other steps ----

  /** The code a handler has looked up carries the nonce and the time of its login. */
  lemma LookedUpLogin(w: World, s: State, job: nat, x: Exchange, client: Client, ac: AuthCode)
    requires Traced(w, s) && job in s.jobs && s.jobs[job] == Looked(x, client, ac)
    ensures x.code in s.log.logins && ac.nonce == s.log.logins[x.code].query.nonce && ac.authTime == s.log.logins[x.code].at
  {
    assert JobFrom(w, s, s.jobs[job]) && LoginOk(w, s, s.log.logins[x.code]);
    hide ClockOk, RedeemedOk, PresentationOk, CodeFrom, RowFrom, MintedFrom, ProperRequest, Proves, InRange;
  }

  lemma RedeemAnswers(w: World, s: State, s': State, job: nat, x: Exchange, client: Client, ac: AuthCode)
    requires Answered(w, s) && Persists(w, s, s') && Once(s) && Traced(w, s) && job in s.jobs && s.jobs[job] == Looked(x, client, ac)
    requires Redeemed(w, s, s', job, x, client, ac)
    ensures Answered(w, s')
  {
    assert job in s.log.used && job !in s.delivered by { AnsweredApart(w, s, job); JobUsed(s, job); }
    hide Once, Traced, Answered, SoFar, Answers, Persists, Redeemed, OneMoved, JobAnswers, Begin;
    RedeemMoves(w, s, s', job, x, client, ac);
    if job in s'.jobs { RedeemedAnswers(w, s, s', job, x, client, ac); }
    MovedAnswers(w, s, s', job);
  }

  lemma RedeemedAnswers(w: World, s: State, s': State, job: nat, x: Exchange, client: Client, ac: AuthCode)
    requires Persists(w, s, s') && Traced(w, s) && job in s.jobs && s.jobs[job] == Looked(x, client, ac)
    requires job in s'.jobs && s'.jobs[job] == Begin(Grant(client, ac.subject, ac.scope, ac.nonce, ac.authTime, x.code))
    requires job in s'.log.started && s'.log.started[job] == x.code
    ensures JobAnswers(w, s', job)
  {
    LookedUpLogin(w, s, job, x, client, ac);
    RecordKept(w, s, s', x.code);
    BeginAnswers(w, s', Grant(client, ac.subject, ac.scope, ac.nonce, ac.authTime, x.code));
    hide Traced, SoFar, Persists, Begin;
  }

  lemma AnsweredApart(w: World, s: State, job: nat)
    requires Answered(w, s) && job in s.jobs
    ensures job !in s.delivered
  {
  }

  lemma JobUsed(s: State, job: nat)
    requires Once(s) && job in s.jobs
    ensures job in s.log.used
  {
  }

  lemma RecordKept(w: World, s: State, s': State, code: string)
    requires Persists(w, s, s') && code in s.log.logins
    ensures code in s'.log.logins && s'.log.logins[code] == s.log.logins[code]
  {
    hide OriginsStay;
  }

  lemma RedeemMoves(w: World, s: State, s': State, job: nat, x: Exchange, client: Client, ac: AuthCode)
    requires Redeemed(w, s, s', job, x, client, ac)
    ensures OneMoved(s, s', job) && s'.delivered == s.delivered
    ensures job in s'.jobs ==> s'.jobs[job] == Begin(Grant(client, ac.subject, ac.scope, ac.nonce, ac.authTime, x.code))
                               && job in s'.log.started && s'.log.started[job] == x.code
  {
    hide CheckExchange, Begin;
  }

  lemma SpendAnswers(w: World, s: State, s': State, job: nat, client: Client, token: string, sess: Session, root: string)
    requires Answered(w, s) && Persists(w, s, s') && job in s.jobs && s.jobs[job] == Validated(client, token, sess, root)
    requires RevokedRefresh(w, s, s', job, client, token, sess, root)
    ensures Answered(w, s')
  {
    assert JobAnswers(w, s, job) && job !in s.delivered;
    BeginAnswers(w, s', Grant(client, sess.subject, sess.scope, "", sess.issuedAt, root));
    hide SoFar, Answers, Persists, HashToken, Begin;
    MovedAnswers(w, s, s', job);
  }

  lemma AdvanceAnswers(w: World, s: State, job: nat, random: seq<Byte>)
    requires Answered(w, s) && Invariants(w, s) && KeysCovered(w, s) && Persists(w, s, AdvanceJob(w, s, job, random))
    ensures Answered(w, AdvanceJob(w, s, job, random))
  {
    hide Answered, Traced, Once, RowsNamed, KeysCovered, Persists, Issue, Redeem, RevokeForRefresh, Redeemed, RevokedRefresh;
    if job in s.jobs {
      match s.jobs[job]
      case Looked(x, client, ac) =>
        RedeemEffect(w, s, job, x, client, ac);
        RedeemAnswers(w, s, Redeem(w, s, job, x, client, ac), job, x, client, ac);
      case Validated(client, token, sess, root) =>
        RevokeRefreshEffect(w, s, job, client, token, sess, root);
        SpendAnswers(w, s, RevokeForRefresh(w, s, job, client, token, sess, root), job, client, token, sess, root);
      case Issuing(g, resp, stage) => IssueAnswers(w, s, job, g, resp, stage, random);
    }
  }

  lemma TakeAnswers(w: World, s: State, s': State, job: nat, x: Exchange, client: Client)
    requires Answered(w, s) && Persists(w, s, s') && job !in s.log.used && TookCode(s, s', job, x, client)
    ensures Answered(w, s')
  {
    assert job !in s.delivered;
    TakeMoves(s, s', job, x, client);
    hide SoFar, Answers, Answered, Persists, TookCode;
    if s'.jobs == s.jobs {
      QuietAnswers(w, s, s');
    } else {
      MovedAnswers(w, s, s', job);
    }
  }

  lemma TakeMoves(s: State, s': State, job: nat, x: Exchange, client: Client)
    requires TookCode(s, s', job, x, client)
    ensures OneMoved(s, s', job) && s'.delivered == s.delivered
    ensures s'.log.started == s.log.started && s'.log.presented == s.log.presented
    ensures s'.jobs == s.jobs || (job in s'.jobs && s'.jobs[job].Looked?)
  {
  }

  lemma TakeCodeAnswers(w: World, s: State, job: nat, x: Exchange)
    requires Answered(w, s) && job !in s.log.used && Persists(w, s, TakeCode(w, s, job, x))
    ensures Answered(w, TakeCode(w, s, job, x))
  {
    hide Answered, AuthenticateClient, Take, Persists;
    if AuthenticateClient(w.clients, x.credentials).Some? {
      var client := AuthenticateClient(w.clients, x.credentials).value;
      TakeEffect(s, job, x, client);
      if x.code != "" && x.verifier != "" {
        TakeAnswers(w, s, Take(s, job, x, client), job, x, client);
      }
    }
  }

  lemma CheckAnswers(w: World, s: State, s': State, job: nat, token: string)
    requires Answered(w, s) && Persists(w, s, s') && Once(s) && job !in s.log.used && CheckedRefresh(w, s, s', job, token)
    ensures Answered(w, s')
  {
    assert job !in s.delivered && job !in s.jobs && job !in s.log.started;
    CheckMoves(w, s, s', job, token);
    hide SoFar, Answers, Answered, Persists, Once, CheckedRefresh;
    if s'.jobs == s.jobs && s'.log.presented == s.log.presented {
      QuietAnswers(w, s, s');
    } else {
      MovedAnswers(w, s, s', job);
    }
  }

  lemma CheckMoves(w: World, s: State, s': State, job: nat, token: string)
    requires CheckedRefresh(w, s, s', job, token) && job !in s.log.started
    ensures OneMoved(s, s', job) && s'.delivered == s.delivered && s'.log.started == s.log.started
    ensures (s'.jobs == s.jobs && s'.log.presented == s.log.presented)
            || (job in s'.jobs && s'.jobs[job].Validated? && OwnRoot(s', job, s'.jobs[job]))
  {
    hide ValidateOpaque, HashToken, RootOf, IsClient, Proves;
  }

  // ---- runs ----

  lemma ActUsed(w: World, s: State, e: Event)
    requires Allowed(w, s, e)
    ensures s.log.used <= Act(w, s, e).log.used && s.log.minted <= Act(w, s, e).log.minted
  {
    hide InsertCode, TakeCode, CheckRefresh, AdvanceJob, Background, Encode;
    match e
    case LogIn(_, _, _, _, _, _) => InsertUsed(w, s, e);
    case BeginExchange(job, x) => TakeUsed(w, s, job, x);
    case BeginRefresh(job, token, credentials) => CheckEffect(w, s, job, token, credentials);
    case Advance(job, random, _) => AdvanceUsed(w, s, job, random);
    case Restart(_) =>
    case _ => BackgroundEffect(w, s, e);
  }

  lemma StepUsed(w: World, s: State, e: Event)
    requires Allowed(w, s, e)
    ensures s.log.used <= Step(w, s, e).log.used && s.log.minted <= Step(w, s, e).log.minted
  {
    StepIs(w, s, e);
    ActUsed(w, s, e);
    hide Act, Step, Saves;
  }

  lemma InsertUsed(w: World, s: State, e: Event)
    requires e.LogIn? && Allowed(w, s, e)
    ensures InsertCode(w, s, e).log.used == s.log.used && InsertCode(w, s, e).log.minted == s.log.minted
  {
    InsertEffect(w, s, e);
    hide InsertCode, NewAuthCode, ValidateAuthRequest, Encode;
  }

  lemma TakeUsed(w: World, s: State, job: nat, x: Exchange)
    ensures s.log.used <= TakeCode(w, s, job, x).log.used && TakeCode(w, s, job, x).log.minted == s.log.minted
  {
    hide AuthenticateClient, Take;
    if AuthenticateClient(w.clients, x.credentials).Some? {
      TakeEffect(s, job, x, AuthenticateClient(w.clients, x.credentials).value);
    }
  }

  lemma AdvanceUsed(w: World, s: State, job: nat, random: seq<Byte>)
    ensures AdvanceJob(w, s, job, random).log.used == s.log.used && s.log.minted <= AdvanceJob(w, s, job, random).log.minted
  {
    hide Issue, Redeem, RevokeForRefresh, Encode, StoredRow, Follows, CheckExchange;
    if job in s.jobs {
      match s.jobs[job]
      case Looked(x, client, ac) => RedeemEffect(w, s, job, x, client, ac);
      case Validated(client, token, sess, root) => RevokeRefreshEffect(w, s, job, client, token, sess, root);
      case Issuing(g, resp, stage) => IssueEffect(w, s, job, g, resp, stage, random);
    }
  }

  lemma StepPersists(w: World, s: State, e: Event)
    requires HashInjective(w.lib) && Invariants(w, s) && Allowed(w, s, e)
    ensures Persists(w, s, Step(w, s, e))
  {
    StepStays(w, s, e);
    StepUsed(w, s, e);
    StepSettles(w, s, e);
    hide Step, HashInjective, Traced, Once, RowsNamed, RecordGrows, OriginsStay, Allowed;
    if e.Restart? {
      RestartSeen(w, s, e);
    } else {
      SettledSeen(w, s, Step(w, s, e));
    }
  }

  lemma RestartSeen(w: World, s: State, e: Event)
    requires e.Restart?
    ensures Step(w, s, e).log == s.log
  {
  }

  lemma SettledSeen(w: World, s: State, s': State)
    requires RowsSettle(w, s, s')
    ensures s.log.seen <= s'.log.seen
  {
    hide HashToken;
  }

  lemma LogInAnswers(w: World, s: State, e: Event)
    requires Answered(w, s) && e.LogIn? && Allowed(w, s, e) && Persists(w, s, InsertCode(w, s, e))
    ensures Answered(w, InsertCode(w, s, e))
  {
    InsertEffect(w, s, e);
    hide Answered, InsertCode, NewAuthCode, ValidateAuthRequest, Encode, Persists;
    QuietAnswers(w, s, InsertCode(w, s, e));
  }

  lemma ActAnswered(w: World, s: State, e: Event)
    requires WellConfigured(w) && Answered(w, s) && Invariants(w, s) && KeysCovered(w, s) && Allowed(w, s, e)
    requires Persists(w, s, Act(w, s, e))
    ensures Answered(w, Act(w, s, e))
  {
    hide InsertCode, TakeCode, CheckRefresh, AdvanceJob, Background, Restarted, Traced, Once, RowsNamed, KeysCovered, Answered, Persists,
      WellConfigured, Encode;
    match e
    case LogIn(_, _, _, _, _, _) => LogInAnswers(w, s, e);
    case BeginExchange(job, x) => TakeCodeAnswers(w, s, job, x);
    case BeginRefresh(job, token, credentials) =>
      CheckEffect(w, s, job, token, credentials);
      CheckAnswers(w, s, CheckRefresh(w, s, job, token, credentials), job, token);
    case Advance(job, random, _) => AdvanceAnswers(w, s, job, random);
    case Restart(ring) => RestartAnswers(w, s, ring);
    case _ => BackgroundAnswers(w, s, e);
  }

  lemma StepAnswered(w: World, s: State, e: Event)
    requires WellConfigured(w) && Answered(w, s) && Invariants(w, s) && KeysCovered(w, s) && Allowed(w, s, e)
    ensures Answered(w, Step(w, s, e))
  {
    hide JsonRoundTrips, HashInjective, SignaturesMatch, Act, Step, Saves, Invariants, KeysCovered, Answered, Persists;
    StepIs(w, s, e);
    StepPersists(w, s, e);
    assert Persists(w, s, Act(w, s, e)) by { ActPersists(w, s, Act(w, s, e)); }
    ActAnswered(w, s, e);
    if Saves(w, s, e) { PersistedAnswers(w, Act(w, s, e)); }
  }

  lemma ActPersists(w: World, s: State, acted: State)
    ensures Persists(w, s, Persisted(acted)) ==> Persists(w, s, acted)
  {
    hide HashToken;
  }

  lemma PersistedAnswers(w: World, s: State)
    requires Answered(w, s)
    ensures Answered(w, Persisted(s))
  {
    assert Persists(w, s, Persisted(s)) by { hide HashToken, Answered; }
    hide Answered, Persists;
    QuietAnswers(w, s, Persisted(s));
  }

  lemma RestartAnswers(w: World, s: State, ring: Ring)
    requires Answered(w, s) && FreshRing(ring) && Persists(w, s, Restarted(s, ring))
    ensures Answered(w, Restarted(s, ring))
  {
    RestartEffect(s, ring);
    hide Answered, Restarted, Persists, FreshRing;
    QuietAnswers(w, s, Restarted(s, ring));
  }

  lemma BackgroundAnswers(w: World, s: State, e: Event)
    requires Answered(w, s) && Allowed(w, s, e) && Persists(w, s, Background(w, s, e))
    ensures Answered(w, Background(w, s, e))
  {
    BackgroundEffect(w, s, e);
    hide Answered, Background, Persists, Allowed, OnlyBackground;
    BackgroundQuiet(s, Background(w, s, e));
    QuietAnswers(w, s, Background(w, s, e));
  }

  lemma BackgroundQuiet(s: State, s': State)
    requires OnlyBackground(s, s')
    ensures forall j :: j in s'.jobs ==> j in s.jobs && s'.jobs[j] == s.jobs[j]
    ensures s'.log.started == s.log.started && s'.log.presented == s.log.presented && s'.delivered == s.delivered
  {
  }

  lemma {:induction false} RunAnswered(w: World, s: State, es: seq<Event>)
    requires WellConfigured(w) && Answered(w, s) && Invariants(w, s) && KeysCovered(w, s) && AllowedRun(w, s, es)
    ensures Answered(w, Run(w, s, es)) && Invariants(w, Run(w, s, es))
    decreases |es|
  {
    hide Answered, Invariants, KeysCovered, Step, Allowed, WellConfigured;
    if es != [] {
      StepAnswered(w, s, es[0]);
      StepKept(w, s, es[0]);
      StepCovered(w, s, es[0]);
      RunAnswered(w, Step(w, s, es[0]), es[1..]);
    }
  }

  lemma InitAnswered(w: World, s0: State)
    requires Init(w, s0)
    ensures Answered(w, s0) && KeysCovered(w, s0)
  {
    hide ClockOk;
  }

  /**
   Every response ever sent answers one grant of a login that was properly redeemed, the one its own
   handler redeemed if it redeemed one: it has that login's scope, an access token minted or stored
   for it in the client's mode, an ID token signed for it exactly when the scope has `openid`, and a
   refresh row stored for it exactly when the scope has `offline_access`.
   */
  lemma EveryResponse(w: World, s: State, job: nat)
    requires WellConfigured(w) && Reachable(w, s) && job in s.delivered
    ensures Answers(w, s, job, s.delivered[job]) && ProperLogin(w, s, s.delivered[job].g.root)
  {
    hide WellConfigured, Answers, Invariants, Answered, KeysCovered, Init, AllowedRun, Run;
    var s0, es :| Init(w, s0) && AllowedRun(w, s0, es) && s == Run(w, s0, es);
    InitKept(w, s0);
    InitAnswered(w, s0);
    RunAnswered(w, s0, es);
    ResponseOfLogin(w, s, job);
  }

  lemma ResponseOfLogin(w: World, s: State, job: nat)
    requires Answered(w, s) && Invariants(w, s) && job in s.delivered
    ensures Answers(w, s, job, s.delivered[job]) && ProperLogin(w, s, s.delivered[job].g.root)
  {
    hide Traced, Once, RowsNamed, AccessFor, IdFor, RefreshFor, ProperLogin, JobAnswers;
    var g := s.delivered[job].g;
    assert Answers(w, s, job, s.delivered[job]);
    DescendsProper(w, s, g.root, g.subject, g.client.id, g.scope);
  }
}
