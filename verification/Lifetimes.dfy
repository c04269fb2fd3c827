/**
 How long tokens are accepted, from the step that mints them over every continuation of the run:
 an opaque token up to its expiry and not after, unless its row is revoked; a JWT up to its expiry
 and not a second after, whatever is revoked.
 */
module Lifetimes {
  import opened Wrappers
  import opened Clock
  import opened Base64Url
  import opened JwtClaims
  import opened Primitives
  import opened Jwt
  import opened KeyRing
  import opened Sessions
  import opened Stores
  import opened Grants
  import opened Sidecar
  import opened SingleUse
  import opened Provenance
  import opened OpaqueTokens
  import opened KeyCoverage
  import Text

  // ---- opaque tokens ----

  /** The step does not take this row: no revocation of its token or subject, no refresh that spends it, no restart from a disk without it. */
  ghost predicate Spares(w: World, s: State, e: Event, key: string, subject: string) {
    match e
    case Revoke(token, credentials, _) =>
      token == "" || AuthenticateClient(w.clients, credentials).None? || HashToken(w.lib, token) != key
    case RevokeSubject(sub, _) => sub != subject
    case Advance(job, _, _) => job in s.jobs && s.jobs[job].Validated? ==> HashToken(w.lib, s.jobs[job].token) != key
    case Restart(_) => key in s.disk
    case _ => true
  }

  ghost predicate SparesRun(w: World, s: State, es: seq<Event>, key: string, subject: string)
    decreases |es|
  {
    es != [] ==> Spares(w, s, es[0], key, subject) && SparesRun(w, Step(w, s, es[0]), es[1..], key, subject)
  }

  ghost predicate HasRow(s: State, key: string, row: Row) {
    key in s.table && s.table[key] == row
  }

  lemma AdvanceSpares(w: World, s: State, job: nat, random: seq<Byte>, saved: bool, key: string, row: Row)
    requires HasRow(s, key, row) && Spares(w, s, Advance(job, random, saved), key, row.session.subject)
    ensures key in AdvanceJob(w, s, job, random).table
  {
    hide Issue, Redeem, RevokeForRefresh, Encode, Follows, HashToken, OpaqueSession;
    if job in s.jobs {
      match s.jobs[job]
      case Looked(x, client, ac) => RedeemEffect(w, s, job, x, client, ac);
      case Validated(client, token, sess, root) => RevokeRefreshEffect(w, s, job, client, token, sess, root);
      case Issuing(g, resp, stage) => IssueEffect(w, s, job, g, resp, stage, random);
    }
  }

  lemma BackgroundSpares(w: World, s: State, e: Event, key: string, row: Row)
    requires Allowed(w, s, e) && HasRow(s, key, row) && Spares(w, s, e, key, row.session.subject)
    requires !Expired(row.session, s.now) && !e.Restart?
    ensures key in Background(w, s, e).table
  {
    hide AuthenticateClient, HashToken, Rotated, Pruned, UnexpiredCodes, Encode;
  }

  lemma TakeSameTable(w: World, s: State, job: nat, x: Exchange)
    ensures TakeCode(w, s, job, x).table == s.table
  {
    hide AuthenticateClient, Take;
    if AuthenticateClient(w.clients, x.credentials).Some? {
      TakeEffect(s, job, x, AuthenticateClient(w.clients, x.credentials).value);
    }
  }

  lemma LogInSameTable(w: World, s: State, e: Event)
    requires e.LogIn? && Allowed(w, s, e)
    ensures InsertCode(w, s, e).table == s.table
  {
    hide InsertCode, NewAuthCode, ValidateAuthRequest, Encode;
    InsertEffect(w, s, e);
  }

  lemma ActSpares(w: World, s: State, e: Event, key: string, row: Row)
    requires Allowed(w, s, e) && HasRow(s, key, row) && Spares(w, s, e, key, row.session.subject)
    requires !Expired(row.session, s.now)
    ensures key in Act(w, s, e).table
  {
    hide InsertCode, TakeCode, CheckRefresh, AdvanceJob, Background, Encode;
    match e
    case LogIn(_, _, _, _, _, _) => LogInSameTable(w, s, e);
    case BeginExchange(job, x) => TakeSameTable(w, s, job, x);
    case BeginRefresh(job, token, credentials) => CheckEffect(w, s, job, token, credentials);
    case Advance(job, random, saved) => AdvanceSpares(w, s, job, random, saved, key, row);
    case Restart(_) =>
    case _ => BackgroundSpares(w, s, e, key, row);
  }

  lemma StepSpares(w: World, s: State, e: Event, key: string, row: Row)
    requires Allowed(w, s, e) && HasRow(s, key, row) && Spares(w, s, e, key, row.session.subject)
    requires !Expired(row.session, s.now)
    ensures key in Step(w, s, e).table
  {
    StepIs(w, s, e);
    ActSpares(w, s, e, key, row);
    hide Act, Step, Saves, Spares;
  }

  /** The row is there until it expires, and nothing else ever stands in its place. */
  ghost predicate RowLives(w: World, s: State, token: string, row: Row) {
    var key := HashToken(w.lib, token);
    && token in s.log.seen && (key in s.table ==> s.table[key] == row) && (key in s.disk ==> s.disk[key] == row)
    && (!Expired(row.session, s.now) ==> key in s.table)
  }

  lemma StepLives(w: World, s: State, e: Event, token: string, row: Row)
    requires HashInjective(w.lib) && RowsNamed(w, s) && Allowed(w, s, e) && RowLives(w, s, token, row)
    requires Spares(w, s, e, HashToken(w.lib, token), row.session.subject)
    ensures RowLives(w, Step(w, s, e), token, row)
  {
    var key := HashToken(w.lib, token);
    var s' := Step(w, s, e);
    StepSettles(w, s, e);
    if e.Restart? {
      RestartEffect(s, e.ring);
      hide HashToken, RowsNamed, HashInjective, FreshRing;
    } else {
      NoOtherRow(w, s, s', token, row);
      hide Step, HashToken, RowsNamed, HashInjective, Allowed, RowsSettle;
      if !Expired(row.session, s.now) {
        StepSpares(w, s, e, key, row);
      }
      SettledLater(w, s, s');
    }
  }

  lemma SettledLater(w: World, s: State, s': State)
    requires RowsSettle(w, s, s')
    ensures s.now <= s'.now && s.log.seen <= s'.log.seen && (s'.disk == s.disk || s'.disk == s'.table)
  {
    hide HashToken;
  }

  lemma NoOtherRow(w: World, s: State, s': State, token: string, row: Row)
    requires HashInjective(w.lib) && RowsSettle(w, s, s') && RowLives(w, s, token, row)
    ensures var key := HashToken(w.lib, token); key in s'.table ==> s'.table[key] == row
  {
    var key := HashToken(w.lib, token);
    if key in s'.table && key !in s.table {
      var t :| t !in s.log.seen && t in s'.log.seen && HashToken(w.lib, t) == key;
      HashTokenInjective(w.lib, t, token);
    }
  }

  lemma {:induction false} RunLives(w: World, s: State, es: seq<Event>, token: string, row: Row)
    requires HashInjective(w.lib) && RowsNamed(w, s) && AllowedRun(w, s, es) && RowLives(w, s, token, row)
    requires SparesRun(w, s, es, HashToken(w.lib, token), row.session.subject)
    ensures RowLives(w, Run(w, s, es), token, row)
    decreases |es|
  {
    hide RowsNamed, Step, Allowed, RowsSettle, HashInjective, RowLives, HashToken, Spares;
    if es != [] {
      StepSettles(w, s, es[0]);
      StepLives(w, s, es[0], token, row);
      RunLives(w, Step(w, s, es[0]), es[1..], token, row);
    }
  }

  lemma LivesValidates(w: World, s: State, token: string, row: Row)
    requires RowLives(w, s, token, row)
    ensures ValidateOpaque(w.lib, s.table, token, s.now) == if s.now <= row.session.expiresAt then Some(row.session) else None
  {
    hide HashToken;
  }

  lemma StoredLives(w: World, s: State, job: nat, g: Grant, resp: TokenSet, stage: Stage, random: seq<Byte>, saved: bool)
    requires job in s.jobs && s.jobs[job] == Issuing(g, resp, stage) && stage.Timed?
    requires HashToken(w.lib, Encode(random)) !in s.disk
    ensures RowLives(w, Step(w, s, Advance(job, random, saved)), Encode(random),
                     Row(OpaqueSession(w.lib, GrantSession(g), Encode(random), stage.at, stage.ttl), s.now))
  {
    StepIs(w, s, Advance(job, random, saved));
    AdvanceIssues(w, s, job, g, resp, stage, random, saved);
    IssueEffect(w, s, job, g, resp, stage, random);
    hide Act, Step, Saves, Issue, Encode, Follows, HashToken, OpaqueSession;
  }

  /**
   An opaque token, access or refresh, validates at every instant up to the clock reading it was
   minted with plus its lifetime and at none after, over every run that does not revoke it.
   */
  lemma OpaqueWindow(w: World, s: State, job: nat, g: Grant, resp: TokenSet, stage: Stage, random: seq<Byte>, saved: bool, es: seq<Event>)
    requires WellConfigured(w) && Reachable(w, s)
    requires job in s.jobs && s.jobs[job] == Issuing(g, resp, stage) && stage.Timed?
    requires Allowed(w, s, Advance(job, random, saved)) && AllowedRun(w, Step(w, s, Advance(job, random, saved)), es)
    requires SparesRun(w, Step(w, s, Advance(job, random, saved)), es, HashToken(w.lib, Encode(random)), g.subject)
    ensures var later := Run(w, Step(w, s, Advance(job, random, saved)), es);
            ValidateOpaque(w.lib, later.table, Encode(random), later.now)
            == if later.now <= stage.at + stage.ttl
               then Some(OpaqueSession(w.lib, GrantSession(g), Encode(random), stage.at, stage.ttl)) else None
  {
    var s1 := Step(w, s, Advance(job, random, saved));
    var row := Row(OpaqueSession(w.lib, GrantSession(g), Encode(random), stage.at, stage.ttl), s.now);
    ReachableNamed(w, s);
    StepSettles(w, s, Advance(job, random, saved));
    UnseenHasNoRow(w, s, Encode(random));
    StoredLives(w, s, job, g, resp, stage, random, saved);
    hide Step, RowsNamed, HashInjective, RowsSettle, RowLives, ValidateOpaque, HashToken, Encode, Reachable, Allowed, FirstSixteen;
    RunLives(w, s1, es, Encode(random), row);
    LivesValidates(w, Run(w, s1, es), Encode(random), row);
  }

  // ---- JWTs ----

  /** Signatures made stay made, and the ring only moves on. */
  ghost predicate SignaturesStay(w: World, s: State, s': State) {
    RingMoves(w, s, s') && s.notary.Keys <= s'.notary.Keys
  }

  lemma AdvanceKeeps(w: World, s: State, job: nat, random: seq<Byte>)
    ensures SignaturesStay(w, s, AdvanceJob(w, s, job, random))
  {
    hide Issue, Redeem, RevokeForRefresh, Encode, Follows, StoredRow, MessageOf, Pruned, Rotated;
    if job in s.jobs {
      match s.jobs[job]
      case Looked(x, client, ac) => RedeemEffect(w, s, job, x, client, ac);
      case Validated(client, token, sess, root) => RevokeRefreshEffect(w, s, job, client, token, sess, root);
      case Issuing(g, resp, stage) => IssueEffect(w, s, job, g, resp, stage, random);
    }
  }

  lemma TakeKeeps(w: World, s: State, job: nat, x: Exchange)
    ensures SignaturesStay(w, s, TakeCode(w, s, job, x))
  {
    hide AuthenticateClient, Take, Pruned, Rotated;
    if AuthenticateClient(w.clients, x.credentials).Some? {
      TakeEffect(s, job, x, AuthenticateClient(w.clients, x.credentials).value);
    }
  }

  lemma LogInKeeps(w: World, s: State, e: Event)
    requires e.LogIn? && Allowed(w, s, e)
    ensures SignaturesStay(w, s, InsertCode(w, s, e))
  {
    hide InsertCode, NewAuthCode, ValidateAuthRequest, Encode, Pruned, Rotated;
    InsertEffect(w, s, e);
  }

  lemma ActKeeps(w: World, s: State, e: Event)
    requires Allowed(w, s, e) && !e.Restart?
    ensures SignaturesStay(w, s, Act(w, s, e))
  {
    hide InsertCode, TakeCode, CheckRefresh, AdvanceJob, Background, Encode, Pruned, Rotated;
    match e
    case LogIn(_, _, _, _, _, _) => LogInKeeps(w, s, e);
    case BeginExchange(job, x) => TakeKeeps(w, s, job, x);
    case BeginRefresh(job, token, credentials) => CheckEffect(w, s, job, token, credentials);
    case Advance(job, random, _) => AdvanceKeeps(w, s, job, random);
    case _ =>
      BackgroundEffect(w, s, e);
      BackgroundMoves(w, s, e);
  }

  lemma PersistedKeeps(w: World, s: State, acted: State)
    requires SignaturesStay(w, s, acted)
    ensures SignaturesStay(w, s, Persisted(acted))
  {
    hide Pruned, Rotated;
  }

  lemma StepKeeps(w: World, s: State, e: Event)
    requires Allowed(w, s, e) && !e.Restart?
    ensures SignaturesStay(w, s, Step(w, s, e))
  {
    StepIs(w, s, e);
    ActKeeps(w, s, e);
    hide Act, Step, Saves, SignaturesStay;
    if Saves(w, s, e) { PersistedKeeps(w, s, Act(w, s, e)); }
  }

  /** The signature exists and the key resolves for as long as the claims are live. */
  ghost predicate JwtLives(w: World, s: State, d: Draft, k: Key) {
    && (k.pair, MessageOf(w, k, d)) in s.notary
    && DraftOk(w, s, d) && Covered(s, w.gracePeriod, k, d.readAt) && Ordered(s.ring, s.now)
  }

  lemma StepJwtLives(w: World, s: State, e: Event, d: Draft, k: Key)
    requires Allowed(w, s, e) && !e.Restart? && JwtLives(w, s, d, k)
    ensures JwtLives(w, Step(w, s, e), d, k)
  {
    StepKeeps(w, s, e);
    var s' := Step(w, s, e);
    StillLater(w, s, s');
    OrderMoves(w, s, s');
    CoveredMoves(w, s, s', k, d.readAt);
    hide Step, RingMoves, Covered, Ordered, MessageOf;
  }

  lemma {:induction false} RunJwtLives(w: World, s: State, es: seq<Event>, d: Draft, k: Key)
    requires AllowedRun(w, s, es) && NoRestart(es) && JwtLives(w, s, d, k)
    ensures JwtLives(w, Run(w, s, es), d, k)
    decreases |es|
  {
    hide Step, Allowed, JwtLives;
    if es != [] {
      StepJwtLives(w, s, es[0], d, k);
      RunJwtLives(w, Step(w, s, es[0]), es[1..], d, k);
    }
  }

  lemma LivesVerifies(w: World, s: State, d: Draft, k: Key)
    requires JsonRoundTrips(w.lib) && SignaturesMatch(w.lib) && Sound(d.claims) && JwtLives(w, s, d, k)
    requires GraceCovers(d.life, w.gracePeriod) && d.claims.expiresAt != 0
    ensures ValidateJwt(w.lib, Signatures(s), s.ring, TokenOf(w, k, d), s.now)
            == if Live(d.claims, s.now) then Some(ClaimsSession(d.claims)) else None
  {
    hide JsonRoundTrips, SignaturesMatch, Sound, ClaimsSession, ValidateJwt, Find, SignToken, Ordered;
    if Live(d.claims, s.now) {
      LiveIsHeld(w, s, d, k);
      FindHeld(s.ring, s.now, k);
      ValidateAfterSign(w.lib, Signatures(s), s.ring, k, d.claims, s.now);
    } else {
      DeadRefused(w.lib, Signatures(s), s.ring, k, d.claims, s.now);
    }
  }

  lemma DeadRefused(l: Library, signed: Signed, ring: Ring, k: Key, c: Claims, now: Time)
    requires JsonRoundTrips(l) && Sound(c) && !Live(c, now)
    ensures ValidateJwt(l, signed, ring, SignToken(l, k.alg, k.Kid(), k.pair, c), now) == None
  {
    PeekSigned(l, k.alg, k.Kid(), k.pair, c);
    match Find(ring, k.Kid())
    case None =>
    case Some(found) => VerifySigned(l, signed, k.alg, k.Kid(), k.pair, c, found.alg, found.pair, now);
  }

  /** No JWT is a row's token. */
  lemma JwtNotOpaque(w: World, s: State, d: Draft, k: Key)
    requires HashInjective(w.lib) && RowsNamed(w, s)
    ensures ValidateOpaque(w.lib, s.table, TokenOf(w, k, d), s.now) == None
  {
    NamedDotFree(w, s);
    TokenParts(w.lib, k.alg, k.Kid(), k.pair, d.claims);
    var token := TokenOf(w, k, d);
    if HashToken(w.lib, token) in s.table {
      var original :| HashToken(w.lib, original) == HashToken(w.lib, token) && Text.Without(original, '.');
      HashTokenInjective(w.lib, original, token);
      Text.SplitDotFree(token);
    }
  }

  lemma SignedLives(w: World, s: State, job: nat, g: Grant, resp: TokenSet, d: Draft, k: Key, random: seq<Byte>, saved: bool)
    requires KeysCovered(w, s) && job in s.jobs && s.jobs[job] == Issuing(g, resp, Holding(d, k))
    ensures JwtLives(w, Step(w, s, Advance(job, random, saved)), d, k)
  {
    assert JobCovered(w, s, job);
    StepIs(w, s, Advance(job, random, saved));
    AdvanceIssues(w, s, job, g, resp, Holding(d, k), random, saved);
    IssueEffect(w, s, job, g, resp, Holding(d, k), random);
    hide Act, Step, Saves, Issue, MessageOf, Ordered, Encode;
  }

  lemma SoundDraft(w: World, s: State, job: nat, g: Grant, resp: TokenSet, d: Draft, k: Key)
    requires Traced(w, s) && job in s.jobs && s.jobs[job] == Issuing(g, resp, Holding(d, k))
    ensures Sound(d.claims)
  {
    assert JobFrom(w, s, s.jobs[job]);
    hide ClockOk, LoginOk, RedeemedOk, CodeFrom, RowFrom, MintedFrom, Sound;
  }

  /**
   A JWT, access or ID token, is accepted, as a stateless session, at every instant up to the clock
   reading it was minted with plus its lifetime, and refused from one second later on; in between
   its expiry second decides. Nothing short of a restart changes that, revocations included.
   */
  lemma JwtWindow(w: World, s: State, job: nat, g: Grant, resp: TokenSet, d: Draft, k: Key, random: seq<Byte>, saved: bool, es: seq<Event>)
    requires WellConfigured(w) && Reachable(w, s) && job in s.jobs && s.jobs[job] == Issuing(g, resp, Holding(d, k))
    requires Allowed(w, s, Advance(job, random, saved)) && AllowedRun(w, Step(w, s, Advance(job, random, saved)), es) && NoRestart(es)
    requires GraceCovers(d.life, w.gracePeriod) && d.claims.expiresAt != 0
    ensures var later := Run(w, Step(w, s, Advance(job, random, saved)), es);
            && Accepted(w, later, TokenOf(w, k, d))
               == (if Live(d.claims, later.now) then Some((ClaimsSession(d.claims), Stateless)) else None)
            && (later.now <= d.readAt + d.life ==> Live(d.claims, later.now))
            && (d.readAt + d.life + SECOND <= later.now ==> !Live(d.claims, later.now))
  {
    var s1 := Step(w, s, Advance(job, random, saved));
    var later := Run(w, s1, es);
    ReachableKept(w, s);
    ReachableCovered(w, s);
    StepSettles(w, s, Advance(job, random, saved));
    RunNamed(w, s1, es);
    SignedLives(w, s, job, g, resp, d, k, random, saved);
    SoundDraft(w, s, job, g, resp, d, k);
    hide Step, Run, AllowedRun, Allowed, RowsNamed, RowsSettle, Traced, Once, KeysCovered, Reachable, Sound, TokenOf, ClaimsSession,
      ValidateJwt, ValidateOpaque, Live;
    RunJwtLives(w, s1, es, d, k);
    LivesVerifies(w, later, d, k);
    JwtNotOpaque(w, later, d, k);
    DraftWindow(w, later, d, k);
  }

  lemma DraftWindow(w: World, s: State, d: Draft, k: Key)
    requires JwtLives(w, s, d, k) && d.claims.expiresAt != 0
    ensures s.now <= d.readAt + d.life ==> Live(d.claims, s.now)
    ensures d.readAt + d.life + SECOND <= s.now ==> !Live(d.claims, s.now)
  {
    LiveWindow(d.claims, d.readAt, d.life, s.now);
  }

  // ---- expires_in ----

  /** The step that puts the access token into the response. */
  predicate MintsAccess(stage: Stage) {
    (stage.Timed? && !stage.isRefresh) || (stage.Holding? && !stage.draft.isId)
  }

  /** The clock reading the token was minted with. */
  function ReadAt(stage: Stage): Time
    requires MintsAccess(stage)
  {
    if stage.Timed? then stage.at else stage.draft.readAt
  }

  lemma MintedResponse(w: World, s: State, job: nat, g: Grant, resp: TokenSet, stage: Stage, random: seq<Byte>, saved: bool)
    requires KeysCovered(w, s) && job in s.jobs && s.jobs[job] == Issuing(g, resp, stage) && MintsAccess(stage)
    ensures var s1 := Step(w, s, Advance(job, random, saved));
            && job in s1.jobs && s1.jobs[job].Issuing?
            && s1.jobs[job].resp.access == (if stage.Timed? then Encode(random) else TokenOf(w, stage.key, stage.draft))
            && s1.jobs[job].resp.expiresIn == ExpiresIn(if stage.Timed? then stage.ttl else stage.draft.life)
  {
    assert JobCovered(w, s, job);
    StepIs(w, s, Advance(job, random, saved));
    AdvanceIssues(w, s, job, g, resp, stage, random, saved);
    hide Act, Step, Saves, Encode, TokenOf, MessageOf, HashToken, OpaqueSession, ModeFor, Covered, Ordered, ExpiresIn;
  }

  /**
   `expires_in` keeps its promise in both modes: the access token in a response is accepted at every
   instant of every continuation up to `expires_in` seconds after it was minted.
   */
  lemma ExpiresInKept(w: World, s: State, job: nat, g: Grant, resp: TokenSet, stage: Stage, random: seq<Byte>, saved: bool, es: seq<Event>)
    requires WellConfigured(w) && Reachable(w, s) && job in s.jobs && s.jobs[job] == Issuing(g, resp, stage) && MintsAccess(stage)
    requires Allowed(w, s, Advance(job, random, saved)) && AllowedRun(w, Step(w, s, Advance(job, random, saved)), es)
    requires if stage.Timed? then
               SparesRun(w, Step(w, s, Advance(job, random, saved)), es, HashToken(w.lib, Encode(random)), g.subject) && stage.ttl >= 0
             else
               NoRestart(es) && GraceCovers(stage.draft.life, w.gracePeriod) && stage.draft.claims.expiresAt != 0 && stage.draft.life >= 0
    ensures var s1 := Step(w, s, Advance(job, random, saved));
            var later := Run(w, s1, es);
            && job in s1.jobs && s1.jobs[job].Issuing?
            && (later.now <= ReadAt(stage) + s1.jobs[job].resp.expiresIn * SECOND ==>
                  Accepted(w, later, s1.jobs[job].resp.access).Some?)
  {
    var s1 := Step(w, s, Advance(job, random, saved));
    ReachableCovered(w, s);
    MintedResponse(w, s, job, g, resp, stage, random, saved);
    hide Step, Run, AllowedRun, Allowed, KeysCovered, Reachable, TokenOf, ClaimsSession, Encode, HashToken, OpaqueSession,
      ValidateJwt, ValidateOpaque, SparesRun, ExpiresIn, Live, WellConfigured;
    if stage.Timed? {
      ExpiresInBound(stage.ttl);
      OpaqueWindow(w, s, job, g, resp, stage, random, saved, es);
    } else {
      ExpiresInBound(stage.draft.life);
      JwtWindow(w, s, job, g, resp, stage.draft, stage.key, random, saved, es);
    }
  }
}
