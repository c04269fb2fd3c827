/**
 A live token always finds its signing key, in every interleaving of clock readings, signer
 fetches, signatures, rotations and prunings, if the grace period covers the token lifetime plus
 one second; and that second is needed.
 */
module KeyCoverage {
  import opened Wrappers
  import opened Clock
  import opened Base64Url
  import opened JwtClaims
  import opened Jwt
  import opened KeyRing
  import opened Sessions
  import opened Stores
  import opened Grants
  import opened Sidecar

  // ---- the arithmetic ----

  /** The grace period outlasts every live token of this lifetime (or no such token is ever live). */
  predicate GraceCovers(life: Time, grace: Time) {
    life + SECOND <= grace || life + SECOND <= 0
  }

  function Expiring(seconds: int): Claims {
    Claims("", "", [], seconds, 0, 0, "", "", map[])
  }

  /** One key, rotated out at `at` and followed by one pruning at `now`. */
  function AfterRotation(k: Key, next: Key, at: Time, now: Time, grace: Time): Ring {
    Pruned(Rotated(Ring(k, [], k.number), next, at), now - grace)
  }

  /** A token of this lifetime read the clock at `readAt` before its key was rotated out; live at `now`, it finds the key. */
  predicate FindsKey(k: Key, next: Key, life: Time, grace: Time, readAt: Time, at: Time, now: Time) {
    readAt <= at <= now && Unix(readAt + life) != 0 && Live(Expiring(Unix(readAt + life)), now)
    ==> Find(AfterRotation(k, next, at, now, grace), k.Kid()) == Some(k)
  }

  lemma KeptIff(k: Key, next: Key, at: Time, now: Time, grace: Time)
    requires k.number < next.number
    ensures Find(AfterRotation(k, next, at, now, grace), k.Kid()) == Some(k) <==> at > now - grace
  {
    var r := AfterRotation(k, next, at, now, grace);
    assert Kept([], now - grace) == [];
    assert [Retired(k, at)][..0] == [];
    assert r.retired == if at > now - grace then [Retired(k, at)] else [];
    if next.Kid() == k.Kid() {
      KidDeterminesNumber(next, k);
    }
  }

  lemma CoverSuffices(life: Time, grace: Time, readAt: Time, at: Time, now: Time)
    requires GraceCovers(life, grace) && readAt <= at <= now
    requires Unix(readAt + life) != 0 && Live(Expiring(Unix(readAt + life)), now)
    ensures at > now - grace
  {
    LiveWindow(Expiring(Unix(readAt + life)), readAt, life, now);
  }

  /** The last nanosecond of the expiry second, for a token that expires in second one. */
  lemma LastInstant(life: Time)
    ensures var readAt := SECOND - life;
            Unix(readAt + life) == 1 && Unix(readAt + life + SECOND - 1) == 1
            && (forall t :: t <= readAt + life + SECOND - 1 ==> Live(Expiring(1), t))
  {
  }

  lemma CoverNecessary(k: Key, next: Key, life: Time, grace: Time)
    requires k.number < next.number && !GraceCovers(life, grace)
    ensures exists readAt, at, now :: !FindsKey(k, next, life, grace, readAt, at, now)
  {
    var readAt := SECOND - life;
    var now := if grace < 0 then readAt else readAt + life + SECOND - 1;
    LastInstant(life);
    KeptIff(k, next, readAt, now, grace);
    assert !FindsKey(k, next, life, grace, readAt, readAt, now);
  }

  /**
   The extra second is exact: a live token finds its key at all instants if and only if the grace
   period covers the lifetime plus the second that truncation to whole seconds adds.
   */
  lemma GraceExact(k: Key, next: Key, life: Time, grace: Time)
    requires k.number < next.number
    ensures (forall readAt, at, now :: FindsKey(k, next, life, grace, readAt, at, now)) <==> GraceCovers(life, grace)
  {
    if GraceCovers(life, grace) {
      forall readAt, at, now ensures FindsKey(k, next, life, grace, readAt, at, now) {
        if readAt <= at <= now && Unix(readAt + life) != 0 && Live(Expiring(Unix(readAt + life)), now) {
          CoverSuffices(life, grace, readAt, at, now);
          KeptIff(k, next, at, now, grace);
        }
      }
    } else {
      CoverNecessary(k, next, life, grace);
    }
  }

  // ---- the invariant ----

  /** The key still signs, or was retired after the token's clock reading, or a whole grace period has passed since. */
  ghost predicate Covered(s: State, grace: Time, k: Key, readAt: Time) {
    || k == s.ring.active
    || (exists i :: 0 <= i < |s.ring.retired| && s.ring.retired[i].key == k && readAt <= s.ring.retired[i].at)
    || readAt + grace <= s.now
  }

  ghost predicate DraftOk(w: World, s: State, d: Draft) {
    && d.readAt <= s.now
    && d.life == (if d.isId then ID_TOKEN_TTL else w.cfg.statelessTTL)
    && d.claims.expiresAt == Unix(d.readAt + d.life) && d.claims.notBefore == 0
  }

  /** Access tokens are minted the way the client's mode says. */
  ghost predicate ModeSuits(w: World, g: Grant, st: Stage) {
    && (st.Drafted? && !st.draft.isId ==> ModeFor(w.cfg, g.client) == Stateless)
    && (st.Holding? && !st.draft.isId ==> ModeFor(w.cfg, g.client) == Stateless)
    && (st.Timed? && !st.isRefresh ==> ModeFor(w.cfg, g.client) == Stateful)
  }

  ghost predicate StageCovered(w: World, s: State, g: Grant, st: Stage) {
    && ModeSuits(w, g, st)
    && (st.Drafted? ==> DraftOk(w, s, st.draft))
    && (st.Holding? ==> DraftOk(w, s, st.draft) && Covered(s, w.gracePeriod, st.key, st.draft.readAt))
    && (st.Timed? ==> st.ttl == if st.isRefresh then w.cfg.refreshTTL else w.cfg.statefulTTL)
  }

  ghost predicate JobCovered(w: World, s: State, j: nat)
    requires j in s.jobs
  {
    s.jobs[j].Issuing? ==> StageCovered(w, s, s.jobs[j].g, s.jobs[j].stage)
  }

  ghost predicate MintedCovered(w: World, s: State, m: Minted) {
    DraftOk(w, s, m.draft) && Covered(s, w.gracePeriod, m.key, m.draft.readAt)
  }

  ghost predicate KeysCovered(w: World, s: State) {
    && Ordered(s.ring, s.now)
    && (forall j :: j in s.jobs ==> JobCovered(w, s, j))
    && (forall n :: n in s.notary ==> MintedCovered(w, s, s.notary[n]))
  }

  /** The ring moves on: time passes, a key is rotated out, or old keys are pruned. */
  ghost predicate RingMoves(w: World, s: State, s': State) {
    && s.now <= s'.now
    && (|| s'.ring == s.ring
        || s'.ring == s.ring.(made := s.ring.made + 1)
        || (exists next: Key :: next.number == s.ring.made + 1 && s'.ring == Rotated(s.ring, next, s.now) && s'.now == s.now)
        || (s'.ring == Pruned(s.ring, s.now - w.gracePeriod) && s'.now == s.now))
  }

  lemma CoveredMoves(w: World, s: State, s': State, k: Key, readAt: Time)
    requires RingMoves(w, s, s') && Ordered(s.ring, s.now) && Covered(s, w.gracePeriod, k, readAt) && readAt <= s.now
    ensures Covered(s', w.gracePeriod, k, readAt)
  {
    if s'.ring.retired == s.ring.retired && s'.ring.active == s.ring.active {
    } else if s'.ring == Pruned(s.ring, s.now - w.gracePeriod) {
      PrunedCovers(w, s, s', k, readAt);
    } else {
      var n := |s.ring.retired|;
      assert s'.ring.retired[n] == Retired(s.ring.active, s.now);
      assert forall i :: 0 <= i < n ==> s'.ring.retired[i] == s.ring.retired[i];
    }
  }

  lemma PrunedCovers(w: World, s: State, s': State, k: Key, readAt: Time)
    requires s'.ring == Pruned(s.ring, s.now - w.gracePeriod) && s'.now == s.now
    requires Covered(s, w.gracePeriod, k, readAt)
    ensures Covered(s', w.gracePeriod, k, readAt)
  {
    if k != s.ring.active && readAt + w.gracePeriod > s.now {
      var i :| 0 <= i < |s.ring.retired| && s.ring.retired[i].key == k && readAt <= s.ring.retired[i].at;
      KeptMembers(s.ring.retired, s.now - w.gracePeriod, s.ring.retired[i]);
      var j :| 0 <= j < |s'.ring.retired| && s'.ring.retired[j] == s.ring.retired[i];
    }
  }

  lemma OrderMoves(w: World, s: State, s': State)
    requires RingMoves(w, s, s') && Ordered(s.ring, s.now)
    ensures Ordered(s'.ring, s'.now)
  {
    if s'.ring == Pruned(s.ring, s.now - w.gracePeriod) {
      PruneDropsPrefix(s.ring, s.now, s.now - w.gracePeriod);
    }
  }

  lemma BackgroundCovered(w: World, s: State, s': State)
    requires KeysCovered(w, s) && RingMoves(w, s, s')
    requires forall j :: j in s'.jobs ==> j in s.jobs && s'.jobs[j] == s.jobs[j]
    requires s'.notary == s.notary
    ensures KeysCovered(w, s')
  {
    hide Ordered, Covered, RingMoves;
    OrderMoves(w, s, s');
    assert s.now <= s'.now by { StillLater(w, s, s'); }
    forall j | j in s'.jobs ensures JobCovered(w, s', j) {
      assert JobCovered(w, s, j);
      if s.jobs[j].Issuing? && s.jobs[j].stage.Holding? {
        CoveredMoves(w, s, s', s.jobs[j].stage.key, s.jobs[j].stage.draft.readAt);
      }
    }
    forall n | n in s'.notary ensures MintedCovered(w, s', s'.notary[n]) {
      assert MintedCovered(w, s, s.notary[n]);
      CoveredMoves(w, s, s', s.notary[n].key, s.notary[n].draft.readAt);
    }
  }

  lemma StillLater(w: World, s: State, s': State)
    requires RingMoves(w, s, s')
    ensures s.now <= s'.now
  {
  }

  lemma IssueCovered(w: World, s: State, s': State, job: nat, g: Grant, resp: TokenSet, stage: Stage, random: seq<Byte>)
    requires KeysCovered(w, s) && job in s.jobs && s.jobs[job] == Issuing(g, resp, stage)
    requires Issued(w, s, s', job, g, stage, random)
    ensures KeysCovered(w, s')
  {
    hide Ordered, StoredRow, IdClaims, SessionClaims, ModeFor, MessageOf;
    assert StageCovered(w, s, g, stage) by { assert JobCovered(w, s, job); }
    forall j | j in s'.jobs ensures JobCovered(w, s', j) {
      if j == job {
        NextCovered(w, s, s', g, stage, s'.jobs[job].stage, random);
      } else {
        assert JobCovered(w, s, j);
      }
    }
    forall n | n in s'.notary ensures MintedCovered(w, s', s'.notary[n]) {
      assert n in s.notary ==> MintedCovered(w, s, s.notary[n]);
    }
  }

  lemma NextCovered(w: World, s: State, s': State, g: Grant, stage: Stage, next: Stage, random: seq<Byte>)
    requires StageCovered(w, s, g, stage) && Follows(w, s, g, stage, next, random)
    requires s'.now == s.now && s'.ring == s.ring
    ensures StageCovered(w, s', g, next)
  {
  }

  /** Steps that neither touch the ring nor start a signature. */
  lemma QuietCovered(w: World, s: State, s': State, job: nat)
    requires KeysCovered(w, s) && s'.ring == s.ring && s.now <= s'.now && s'.notary == s.notary
    requires OtherJobs(s, s', job)
    requires job in s'.jobs && s'.jobs[job].Issuing? ==>
      s'.jobs[job].stage.AtAccess? || (job in s.jobs && s'.jobs[job] == s.jobs[job])
    ensures KeysCovered(w, s')
  {
    hide Ordered;
    assert Ordered(s'.ring, s'.now) by { LaterOrdered(s.ring, s.now, s'.now); }
    forall j | j in s'.jobs ensures JobCovered(w, s', j) {
      assert j in s.jobs ==> JobCovered(w, s, j);
    }
    forall n | n in s'.notary ensures MintedCovered(w, s', s'.notary[n]) {
      assert MintedCovered(w, s, s.notary[n]);
    }
  }

  lemma LaterOrdered(r: Ring, now: Time, later: Time)
    requires Ordered(r, now) && now <= later
    ensures Ordered(r, later)
  {
  }

  lemma BackgroundMoves(w: World, s: State, e: Event)
    requires Allowed(w, s, e)
    ensures RingMoves(w, s, Background(w, s, e))
  {
    hide Pruned, Rotated, RevokeToken, Next;
    if e.RotateKey? {
      RotateMoves(w, s, e);
    } else if e.Revoke? {
      RevokeEffect(w, s, e.token, e.credentials);
      RevokeMoves(w, s, e.token, e.credentials);
    }
  }

  lemma RevokeMoves(w: World, s: State, token: string, credentials: Credentials)
    ensures RingMoves(w, s, RevokeToken(w, s, token, credentials))
  {
    hide AuthenticateClient, HashToken, Pruned, Rotated;
  }

  lemma RotateMoves(w: World, s: State, e: Event)
    requires e.RotateKey?
    ensures RingMoves(w, s, Rotate(s, e))
  {
    hide Pruned, Rotated;
    if e.material.Some? {
      var next := Key(s.ring.active.alg, s.ring.made + 1, e.kidClock, e.createdAt, e.material.value);
      assert Rotate(s, e).ring == Rotated(s.ring, next, s.now);
    }
  }

  lemma RestartCovered(w: World, s: State, s': State)
    requires OnlyRestarts(s, s')
    ensures KeysCovered(w, s')
  {
  }

  lemma AdvanceCovered(w: World, s: State, job: nat, random: seq<Byte>)
    requires KeysCovered(w, s)
    ensures KeysCovered(w, AdvanceJob(w, s, job, random))
  {
    hide KeysCovered, Issue, Redeem, Follows, StoredRow;
    if job in s.jobs {
      match s.jobs[job]
      case Looked(x, client, ac) =>
        RedeemEffect(w, s, job, x, client, ac);
        QuietCovered(w, s, Redeem(w, s, job, x, client, ac), job);
      case Validated(client, token, sess, root) =>
        QuietCovered(w, s, RevokeForRefresh(w, s, job, client, token, sess, root), job);
      case Issuing(g, resp, stage) =>
        IssueEffect(w, s, job, g, resp, stage, random);
        IssueCovered(w, s, Issue(w, s, job, g, resp, stage, random), job, g, resp, stage, random);
    }
  }

  lemma LogInCovered(w: World, s: State, e: Event)
    requires KeysCovered(w, s) && e.LogIn? && Allowed(w, s, e)
    ensures KeysCovered(w, InsertCode(w, s, e))
  {
    hide KeysCovered, InsertCode, NewAuthCode, ValidateAuthRequest;
    InsertEffect(w, s, e);
    if InsertCode(w, s, e) != s {
      QuietCovered(w, s, InsertCode(w, s, e), 0);
    }
  }

  lemma TakeCovered(w: World, s: State, job: nat, x: Exchange)
    requires KeysCovered(w, s)
    ensures KeysCovered(w, TakeCode(w, s, job, x))
  {
    hide KeysCovered, AuthenticateClient, Take;
    if AuthenticateClient(w.clients, x.credentials).Some? {
      var client := AuthenticateClient(w.clients, x.credentials).value;
      TakeEffect(s, job, x, client);
      QuietCovered(w, s, Take(s, job, x, client), job);
    }
  }

  lemma CheckCovered(w: World, s: State, s': State, job: nat, token: string)
    requires KeysCovered(w, s) && CheckedRefresh(w, s, s', job, token)
    ensures KeysCovered(w, s')
  {
    hide KeysCovered, ValidateOpaque, HashToken, RootOf, IsClient;
    QuietCovered(w, s, s', job);
  }

  lemma ActCovered(w: World, s: State, e: Event)
    requires KeysCovered(w, s) && Allowed(w, s, e)
    ensures KeysCovered(w, Act(w, s, e))
  {
    hide InsertCode, TakeCode, CheckRefresh, AdvanceJob, Background, Restarted, KeysCovered;
    match e
    case LogIn(_, _, _, _, _, _) => LogInCovered(w, s, e);
    case BeginExchange(job, x) => TakeCovered(w, s, job, x);
    case BeginRefresh(job, token, credentials) =>
      CheckEffect(w, s, job, token, credentials);
      CheckCovered(w, s, CheckRefresh(w, s, job, token, credentials), job, token);
    case Advance(job, random, _) => AdvanceCovered(w, s, job, random);
    case Restart(ring) =>
      RestartEffect(s, ring);
      RestartCovered(w, s, Restarted(s, ring));
    case _ =>
      BackgroundEffect(w, s, e);
      BackgroundMoves(w, s, e);
      BackgroundCovered(w, s, Background(w, s, e));
  }

  lemma PersistedCovered(w: World, s: State)
    requires KeysCovered(w, s)
    ensures KeysCovered(w, Persisted(s))
  {
    hide KeysCovered;
    QuietCovered(w, s, Persisted(s), 0);
  }

  lemma StepCovered(w: World, s: State, e: Event)
    requires KeysCovered(w, s) && Allowed(w, s, e)
    ensures KeysCovered(w, Step(w, s, e))
  {
    StepIs(w, s, e);
    ActCovered(w, s, e);
    hide Act, Step, Saves, KeysCovered;
    if Saves(w, s, e) { PersistedCovered(w, Act(w, s, e)); }
  }

  lemma {:induction false} RunCovered(w: World, s: State, es: seq<Event>)
    requires KeysCovered(w, s) && AllowedRun(w, s, es)
    ensures KeysCovered(w, Run(w, s, es))
    decreases |es|
  {
    hide KeysCovered, Step, Allowed;
    if es != [] {
      StepCovered(w, s, es[0]);
      RunCovered(w, Step(w, s, es[0]), es[1..]);
    }
  }

  lemma ReachableCovered(w: World, s: State)
    requires Reachable(w, s)
    ensures KeysCovered(w, s)
  {
    var s0, es :| Init(w, s0) && AllowedRun(w, s0, es) && s == Run(w, s0, es);
    RunCovered(w, s0, es);
  }

  // ---- the theorem ----

  lemma LiveIsHeld(w: World, s: State, d: Draft, k: Key)
    requires DraftOk(w, s, d) && Covered(s, w.gracePeriod, k, d.readAt)
    requires GraceCovers(d.life, w.gracePeriod) && d.claims.expiresAt != 0 && Live(d.claims, s.now)
    ensures Holds(s.ring, k)
  {
    LiveWindow(d.claims, d.readAt, d.life, s.now);
  }

  /**
   In every reachable state, the lookup finds the signing key of every token signed since the last
   start, as of every token a handler is about to sign, if `checkTimes` passes it at that or any later
   reading of the clock.
   */
  lemma LiveTokenFindsKey(w: World, s: State, d: Draft, k: Key, later: Time)
    requires Reachable(w, s) && s.now <= later
    requires (exists n :: n in s.notary && s.notary[n].draft == d && s.notary[n].key == k)
             || (exists j :: j in s.jobs && s.jobs[j].Issuing? && s.jobs[j].stage == Holding(d, k))
    requires GraceCovers(d.life, w.gracePeriod) && d.claims.expiresAt != 0 && Live(d.claims, later)
    ensures Find(s.ring, k.Kid()) == Some(k)
  {
    ReachableCovered(w, s);
    HeldIsCovered(w, s, d, k);
    LiveBefore(w, s, d, later);
    LiveIsHeld(w, s, d, k);
    FindHeld(s.ring, s.now, k);
  }

  lemma HeldIsCovered(w: World, s: State, d: Draft, k: Key)
    requires KeysCovered(w, s)
    requires (exists n :: n in s.notary && s.notary[n].draft == d && s.notary[n].key == k)
             || (exists j :: j in s.jobs && s.jobs[j].Issuing? && s.jobs[j].stage == Holding(d, k))
    ensures DraftOk(w, s, d) && Covered(s, w.gracePeriod, k, d.readAt)
  {
    if n :| n in s.notary && s.notary[n].draft == d && s.notary[n].key == k {
      assert MintedCovered(w, s, s.notary[n]);
    } else {
      var j :| j in s.jobs && s.jobs[j].Issuing? && s.jobs[j].stage == Holding(d, k);
      assert JobCovered(w, s, j);
    }
  }

  lemma LiveBefore(w: World, s: State, d: Draft, later: Time)
    requires DraftOk(w, s, d) && s.now <= later && Live(d.claims, later)
    ensures Live(d.claims, s.now)
  {
  }
}
