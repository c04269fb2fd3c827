/**
 Background cleanup is invisible: sweeping expired rows and pruning expired codes, wherever they
 happen in a run, change no validation, no issued token and no success or failure of a request.
 Shown by a simulation between a run with cleanup and one without whose restarts lose no row. Restarts
 are covered if each finds the live rows of the table on the disk, as it does if every snapshot that is
 due is saved; `Sweeps` shows what cleanup can change otherwise.
 */
module Cleanup {
  import opened Clock
  import opened Base64Url
  import opened KeyRing
  import opened Sessions
  import opened Stores
  import opened Grants
  import opened Sidecar
  import opened SingleUse
  import opened OpaqueTokens

  // ---- the machine without cleanup ----

  predicate IsCleanup(e: Event) {
    e.SweepRows? || e.PruneCodes?
  }

  /** Sweeps and prunings do nothing, a login does not prune, and a restart finds the whole table. */
  function LazyStep(w: World, s: State, e: Event): State {
    if IsCleanup(e) then s
    else if e.LogIn? then Insert(w, s, s.codes, e)
    else if e.Restart? then Restarted(Persisted(s), e.ring)
    else Act(w, s, e)
  }

  function LazyRun(w: World, s: State, es: seq<Event>): State
    decreases |es|
  {
    if es == [] then s else LazyRun(w, LazyStep(w, s, es[0]), es[1..])
  }

  // ---- the simulation relation ----

  predicate SameAt(now: Time, a: Table, b: Table, key: string) {
    Lookup(a, key, now) == Lookup(b, key, now)
  }

  /** The live rows are the same; what else there is has expired. */
  ghost predicate RowsMatch(now: Time, a: Table, b: Table) {
    forall k :: SameAt(now, a, b, k)
  }

  /** Codes left over have expired. */
  ghost predicate CodesMatch(now: Time, a: Codes, b: Codes) {
    && (forall c :: c in a ==> c in b && b[c] == a[c])
    && (forall c :: c in b && c !in a ==> now > b[c].expiresAt)
  }

  /** A handler that will be told its code has expired. */
  predicate Doomed(now: Time, job: Job) {
    job.Looked? && now > job.ac.expiresAt
  }

  ghost predicate JobsMatch(now: Time, a: map<nat, Job>, b: map<nat, Job>) {
    && (forall j :: j in a ==> j in b && b[j] == a[j])
    && (forall j :: j in b && j !in a ==> Doomed(now, b[j]))
  }

  ghost predicate LogsMatch(a: History, b: History) {
    && a.logins == b.logins && a.looked == b.looked && a.redeemed == b.redeemed && a.started == b.started
    && a.presented == b.presented && a.origins == b.origins && a.seen == b.seen && a.used == b.used && a.minted == b.minted
  }

  /** `a` has been cleaned up, `b` has not; everything else agrees. */
  ghost predicate Match(a: State, b: State) {
    && a.now == b.now && a.ring == b.ring && a.notary == b.notary && a.delivered == b.delivered
    && LogsMatch(a.log, b.log)
    && RowsMatch(a.now, a.table, b.table) && CodesMatch(a.now, a.codes, b.codes) && JobsMatch(a.now, a.jobs, b.jobs)
  }

  /** A restart now would lose no live row and bring none back. */
  ghost predicate Settled(s: State) {
    RowsMatch(s.now, s.table, s.disk)
  }

  // ---- what the pieces keep ----

  lemma RowsLater(now: Time, later: Time, a: Table, b: Table)
    requires RowsMatch(now, a, b) && now <= later
    ensures RowsMatch(later, a, b)
  {
    forall k ensures SameAt(later, a, b, k) {
      assert SameAt(now, a, b, k);
    }
  }

  lemma CodesLater(now: Time, later: Time, a: Codes, b: Codes)
    requires CodesMatch(now, a, b) && now <= later
    ensures CodesMatch(later, a, b)
  {
  }

  lemma JobsLater(now: Time, later: Time, a: map<nat, Job>, b: map<nat, Job>)
    requires JobsMatch(now, a, b) && now <= later
    ensures JobsMatch(later, a, b)
  {
  }

  lemma TickMatches(a: State, b: State, later: Time)
    requires Match(a, b) && a.now <= later
    ensures Match(a.(now := later), b.(now := later))
  {
    RowsLater(a.now, later, a.table, b.table);
    CodesLater(a.now, later, a.codes, b.codes);
    JobsLater(a.now, later, a.jobs, b.jobs);
    hide RowsMatch, CodesMatch, JobsMatch, LogsMatch;
  }

  // ---- table and code updates ----

  lemma TableMatches(a: State, b: State, t: Table, u: Table)
    requires Match(a, b) && RowsMatch(a.now, t, u)
    ensures Match(a.(table := t), b.(table := u))
  {
    hide RowsMatch, CodesMatch, JobsMatch, LogsMatch;
  }

  lemma DeleteMatches(now: Time, a: Table, b: Table, key: string)
    requires RowsMatch(now, a, b)
    ensures RowsMatch(now, a - {key}, b - {key})
  {
    var t, u := a - {key}, b - {key};
    forall k ensures SameAt(now, t, u, k) {
      assert SameAt(now, a, b, k);
    }
  }

  lemma SubjectMatches(now: Time, a: Table, b: Table, subject: string)
    requires RowsMatch(now, a, b)
    ensures RowsMatch(now, Next(a, DeleteWhereSubject(subject)), Next(b, DeleteWhereSubject(subject)))
  {
    forall k ensures SameAt(now, Next(a, DeleteWhereSubject(subject)), Next(b, DeleteWhereSubject(subject)), k) {
      assert SameAt(now, a, b, k);
    }
  }

  lemma SweptMatches(now: Time, a: Table, b: Table, asOf: Time)
    requires RowsMatch(now, a, b) && asOf <= now
    ensures RowsMatch(now, Next(a, Sweep(asOf)), b)
  {
    forall k ensures SameAt(now, Next(a, Sweep(asOf)), b, k) {
      SweepInvisible(a, asOf, k, now);
      assert SameAt(now, a, b, k);
    }
  }

  lemma PutMatches(now: Time, a: Table, b: Table, key: string, row: Row)
    requires RowsMatch(now, a, b)
    ensures RowsMatch(now, a[key := row], b[key := row])
  {
    var t, u := a[key := row], b[key := row];
    forall k ensures SameAt(now, t, u, k) {
      assert SameAt(now, a, b, k);
    }
  }

  lemma RowsChain(now: Time, a: Table, b: Table, c: Table)
    requires RowsMatch(now, a, b) && RowsMatch(now, b, c)
    ensures RowsMatch(now, a, c)
  {
    hide Lookup;
    forall k ensures SameAt(now, a, c, k) {
      assert SameAt(now, a, b, k) && SameAt(now, b, c, k);
    }
  }

  lemma RowsFlip(now: Time, a: Table, b: Table)
    requires RowsMatch(now, a, b)
    ensures RowsMatch(now, b, a)
  {
    hide Lookup;
    forall k ensures SameAt(now, b, a, k) {
      assert SameAt(now, a, b, k);
    }
  }

  lemma SelfMatches(now: Time, t: Table)
    ensures RowsMatch(now, t, t)
  {
    hide Lookup;
  }

  lemma PrunedMatches(a: State, b: State)
    requires Match(a, b)
    ensures Match(SweepCodes(a), b)
  {
    hide RowsMatch, JobsMatch, LogsMatch;
  }

  // ---- handlers ----

  lemma JobMatches(a: State, b: State, job: nat, next: Job)
    requires Match(a, b)
    ensures Match(a.(jobs := a.jobs[job := next]), b.(jobs := b.jobs[job := next]))
  {
    PutJobMatches(a.now, a.jobs, b.jobs, job, next);
    hide RowsMatch, CodesMatch, LogsMatch, JobsMatch;
  }

  lemma DropMatches(a: State, b: State, job: nat)
    requires Match(a, b)
    ensures Match(Drop(a, job), Drop(b, job))
  {
    hide RowsMatch, CodesMatch, LogsMatch, Doomed;
  }

  /** A doomed handler can be dropped from the lazy side alone. */
  lemma DoomedMatches(a: State, b: State, job: nat)
    requires Match(a, b) && job !in a.jobs
    ensures Match(a, Drop(b, job))
  {
    hide RowsMatch, CodesMatch, LogsMatch, Doomed;
  }

  lemma CodeInserted(now: Time, later: Time, a: Codes, b: Codes, code: string, ac: AuthCode)
    requires CodesMatch(now, a, b) && now <= later
    ensures CodesMatch(later, UnexpiredCodes(a, now)[code := ac], b[code := ac])
  {
  }

  lemma LoginRecorded(a: State, b: State, later: Time, kept: Codes, codes: Codes, code: string, login: Login)
    requires Match(a, b)
    requires RowsMatch(later, a.table, b.table) && CodesMatch(later, kept, codes) && JobsMatch(later, a.jobs, b.jobs)
    ensures Match(
      a.(codes := kept, now := later, log := a.log.(logins := a.log.logins[code := login], seen := a.log.seen + {code})),
      b.(codes := codes, now := later, log := b.log.(logins := b.log.logins[code := login], seen := b.log.seen + {code})))
  {
    hide RowsMatch, CodesMatch, JobsMatch;
  }

  lemma LogInMatches(w: World, a: State, b: State, e: Event)
    requires Match(a, b) && e.LogIn? && Allowed(w, a, e)
    ensures Match(InsertCode(w, a, e), Insert(w, b, b.codes, e))
  {
    MatchParts(a, b);
    hide Match, RowsMatch, JobsMatch, CodesMatch, ValidateAuthRequest, NewAuthCode, Encode, UnexpiredCodes, ClockOk, Insert;
    var client, subject := ValidateAuthRequest(w.clients, e.query), w.authenticate(e.username, e.password);
    var kept := UnexpiredCodes(a.codes, a.now);
    if client.Ok? && subject.Some? {
      SuccessfulLogin(w, a, kept, e, client.value, subject.value);
      SuccessfulLogin(w, b, b.codes, e, client.value, subject.value);
      var code := Encode(e.random);
      var ac := NewAuthCode(e.query, client.value, subject.value, e.authClock, e.expiryClock + w.cfg.authCodeTTL);
      RowsLater(a.now, e.expiryClock, a.table, b.table);
      JobsLater(a.now, e.expiryClock, a.jobs, b.jobs);
      CodeInserted(a.now, e.expiryClock, a.codes, b.codes, code, ac);
      LoginRecorded(a, b, e.expiryClock, kept[code := ac], b.codes[code := ac], code, Login(ac, e.query, e.username, e.password, e.authClock, e.expiryClock));
    } else {
      FailedLogin(w, a, kept, e);
      FailedLogin(w, b, b.codes, e);
    }
  }

  lemma MatchParts(a: State, b: State)
    requires Match(a, b)
    ensures RowsMatch(a.now, a.table, b.table) && CodesMatch(a.now, a.codes, b.codes) && JobsMatch(a.now, a.jobs, b.jobs)
  {
    hide RowsMatch, CodesMatch, JobsMatch, LogsMatch;
  }

  lemma TakeMatches(a: State, b: State, job: nat, x: Exchange, client: Client)
    requires Match(a, b) && job !in a.jobs
    ensures Match(Take(a, job, x, client), Take(b, job, x, client))
  {
    CodeTaken(a.now, a.codes, b.codes, x.code);
    LookedMatches(a, b, job, x);
    if x.code in a.codes {
      PutJobMatches(a.now, a.jobs, b.jobs, job, Looked(x, client, a.codes[x.code]));
      TakenMatches(a, b, job, x, client);
    } else if x.code in b.codes {
      ExpiredTaken(a, b, job, x, client);
    }
    hide RowsMatch, CodesMatch, JobsMatch, LogsMatch;
  }

  lemma TakenMatches(a: State, b: State, job: nat, x: Exchange, client: Client)
    requires Match(a, b) && x.code in a.codes && x.code in b.codes && a.codes[x.code] == b.codes[x.code]
    requires CodesMatch(a.now, a.codes - {x.code}, b.codes - {x.code})
    requires JobsMatch(a.now, a.jobs[job := Looked(x, client, a.codes[x.code])], b.jobs[job := Looked(x, client, a.codes[x.code])])
    ensures Match(Take(a, job, x, client), Take(b, job, x, client))
  {
    hide RowsMatch, CodesMatch, JobsMatch;
  }

  /** Only the run without cleanup still finds the expired code, and its handler is doomed. */
  lemma ExpiredTaken(a: State, b: State, job: nat, x: Exchange, client: Client)
    requires Match(a, b) && job !in a.jobs && x.code !in a.codes && x.code in b.codes
    requires CodesMatch(a.now, a.codes, b.codes - {x.code})
    ensures Match(Take(a, job, x, client), Take(b, job, x, client))
  {
    assert a.now > b.codes[x.code].expiresAt;
    PutDoomed(a.now, a.jobs, b.jobs, job, Looked(x, client, b.codes[x.code]));
    hide RowsMatch, CodesMatch, JobsMatch;
  }

  lemma LookedMatches(a: State, b: State, job: nat, x: Exchange)
    requires Match(a, b)
    ensures var l, m := a.log.(looked := a.log.looked + {x.code}, seen := a.log.seen + {x.code}, used := a.log.used + {job}),
                        b.log.(looked := b.log.looked + {x.code}, seen := b.log.seen + {x.code}, used := b.log.used + {job});
            Match(a.(log := l), b.(log := m))
  {
    hide RowsMatch, CodesMatch, JobsMatch;
  }

  lemma CodeTaken(now: Time, a: Codes, b: Codes, c: string)
    requires CodesMatch(now, a, b)
    ensures c in a ==> c in b && a[c] == b[c] && CodesMatch(now, a - {c}, b - {c})
    ensures c !in a ==> CodesMatch(now, a, b - {c})
  {
  }

  lemma PutJobMatches(now: Time, a: map<nat, Job>, b: map<nat, Job>, job: nat, next: Job)
    requires JobsMatch(now, a, b)
    ensures JobsMatch(now, a[job := next], b[job := next])
  {
    hide Doomed;
  }

  lemma PutDoomed(now: Time, a: map<nat, Job>, b: map<nat, Job>, job: nat, doomed: Job)
    requires JobsMatch(now, a, b) && job !in a && Doomed(now, doomed)
    ensures JobsMatch(now, a, b[job := doomed])
  {
    hide Doomed;
  }

  lemma TakeCodeMatches(w: World, a: State, b: State, job: nat, x: Exchange)
    requires Match(a, b) && job !in a.jobs
    ensures Match(TakeCode(w, a, job, x), TakeCode(w, b, job, x))
  {
    hide Match, AuthenticateClient, Take;
    if AuthenticateClient(w.clients, x.credentials).Some? {
      TakeMatches(a, b, job, x, AuthenticateClient(w.clients, x.credentials).value);
    }
  }

  lemma EnterMatches(w: World, a: State, b: State, job: nat, token: string, credentials: Credentials, client: Client)
    requires Match(a, b)
    ensures Match(EnterRefresh(w, a, job, token, credentials, client), EnterRefresh(w, b, job, token, credentials, client))
  {
    var key := HashToken(w.lib, token);
    assert SameAt(a.now, a.table, b.table, key);
    var sess := Lookup(a.table, key, a.now);
    SeenMatches(a, b, token);
    if sess.Some? && sess.value.clientID == client.id {
      SameRoots(a, b, key);
      ValidatedMatches(a, b, job, token, Validated(client, token, sess.value, RootOf(a, key)),
                       Presentation(token, credentials, client, sess.value, a.now));
    }
    hide Match, HashToken, Lookup, RootOf;
  }

  lemma SeenMatches(a: State, b: State, token: string)
    requires Match(a, b)
    ensures Match(a.(log := a.log.(seen := a.log.seen + {token})), b.(log := b.log.(seen := b.log.seen + {token})))
  {
    hide RowsMatch, CodesMatch, JobsMatch;
  }

  lemma ValidatedMatches(a: State, b: State, job: nat, token: string, next: Job, p: Presentation)
    requires Match(a, b)
    ensures Match(a.(jobs := a.jobs[job := next],
                     log := a.log.(seen := a.log.seen + {token}).(used := a.log.used + {job}, presented := a.log.presented[job := p])),
                  b.(jobs := b.jobs[job := next],
                     log := b.log.(seen := b.log.seen + {token}).(used := b.log.used + {job}, presented := b.log.presented[job := p])))
  {
    PutJobMatches(a.now, a.jobs, b.jobs, job, next);
    hide RowsMatch, CodesMatch, JobsMatch;
  }

  lemma SameRoots(a: State, b: State, key: string)
    requires LogsMatch(a.log, b.log)
    ensures RootOf(a, key) == RootOf(b, key)
  {
  }

  lemma CheckMatches(w: World, a: State, b: State, job: nat, token: string, credentials: Credentials)
    requires Match(a, b)
    ensures Match(CheckRefresh(w, a, job, token, credentials), CheckRefresh(w, b, job, token, credentials))
  {
    hide Match, AuthenticateClient, EnterRefresh;
    if AuthenticateClient(w.clients, credentials).Some? {
      EnterMatches(w, a, b, job, token, credentials, AuthenticateClient(w.clients, credentials).value);
    }
  }

  lemma RedeemMatches(w: World, a: State, b: State, job: nat, x: Exchange, client: Client, ac: AuthCode)
    requires Match(a, b)
    ensures Match(Redeem(w, a, job, x, client, ac), Redeem(w, b, job, x, client, ac))
  {
    DropMatches(a, b, job);
    PutJobMatches(a.now, a.jobs, b.jobs, job, Begin(Grant(client, ac.subject, ac.scope, ac.nonce, ac.authTime, x.code)));
    hide RowsMatch, CodesMatch, JobsMatch, CheckExchange, Begin, Drop;
  }

  lemma SpendMatches(w: World, a: State, b: State, job: nat, client: Client, token: string, sess: Session, root: string)
    requires Match(a, b)
    ensures Match(RevokeForRefresh(w, a, job, client, token, sess, root), RevokeForRefresh(w, b, job, client, token, sess, root))
  {
    var key := HashToken(w.lib, token);
    DeleteMatches(a.now, a.table, b.table, key);
    hide RowsMatch, CodesMatch, LogsMatch, Begin, HashToken, Doomed;
  }

  lemma SignMatches(w: World, a: State, b: State, job: nat, g: Grant, resp: TokenSet, d: Draft, k: Key)
    requires Match(a, b)
    ensures Match(SignDraft(w, a, job, g, resp, d, k), SignDraft(w, b, job, g, resp, d, k))
  {
    hide RowsMatch, CodesMatch, MessageOf, TokenOf, WithAccess, Doomed;
  }

  lemma StoreMatches(w: World, a: State, b: State, job: nat, g: Grant, resp: TokenSet, at: Time, ttl: Time, isRefresh: bool, token: string)
    requires Match(a, b)
    ensures Match(StoreRow(w, a, job, g, resp, at, ttl, isRefresh, token), StoreRow(w, b, job, g, resp, at, ttl, isRefresh, token))
  {
    PutMatches(a.now, a.table, b.table, HashToken(w.lib, token), Row(OpaqueSession(w.lib, GrantSession(g), token, at, ttl), a.now));
    hide RowsMatch, CodesMatch, OpaqueSession, HashToken, WithAccess, Doomed;
  }

  lemma RespondMatches(a: State, b: State, job: nat, g: Grant, resp: TokenSet)
    requires Match(a, b)
    ensures Match(Respond(a, job, g, resp), Respond(b, job, g, resp))
  {
    hide RowsMatch, CodesMatch, LogsMatch, Doomed;
  }

  lemma IssueMatches(w: World, a: State, b: State, job: nat, g: Grant, resp: TokenSet, stage: Stage, random: seq<Byte>)
    requires Match(a, b)
    ensures Match(Issue(w, a, job, g, resp, stage, random), Issue(w, b, job, g, resp, stage, random))
  {
    if stage.Holding? {
      SignMatches(w, a, b, job, g, resp, stage.draft, stage.key);
    } else if stage.Timed? {
      StoreMatches(w, a, b, job, g, resp, stage.at, stage.ttl, stage.isRefresh, Encode(random));
    } else {
      RespondMatches(a, b, job, g, resp);
      DropMatches(a, b, job);
      forall next ensures Match(SetStage(a, job, g, resp, next), SetStage(b, job, g, resp, next)) {
        JobMatches(a, b, job, Issuing(g, resp, next));
      }
    }
    assert a.now == b.now && a.ring == b.ring;
    hide Match, SignDraft, StoreRow, Respond, Drop, SetStage, AccessDraft, IdDraft, HasScope, ModeFor, Encode;
  }

  // ---- runs ----

  lemma AdvanceMatches(w: World, a: State, b: State, job: nat, random: seq<Byte>)
    requires Match(a, b)
    ensures Match(AdvanceJob(w, a, job, random), AdvanceJob(w, b, job, random))
  {
    if job in a.jobs {
      assert job in b.jobs && b.jobs[job] == a.jobs[job];
      hide Match, Issue, Redeem, RevokeForRefresh;
      match a.jobs[job]
      case Looked(x, client, ac) => RedeemMatches(w, a, b, job, x, client, ac);
      case Validated(client, token, sess, root) => SpendMatches(w, a, b, job, client, token, sess, root);
      case Issuing(g, resp, stage) => IssueMatches(w, a, b, job, g, resp, stage, random);
    } else if job in b.jobs {
      assert Doomed(b.now, b.jobs[job]);
      DoomedMatches(a, b, job);
      DoomedDropped(w, b, job, random);
      hide Match, AdvanceJob, Drop;
      NoSuchJob(w, a, job, random);
    } else {
      hide Match;
    }
  }

  lemma DoomedDropped(w: World, s: State, job: nat, random: seq<Byte>)
    requires job in s.jobs && Doomed(s.now, s.jobs[job])
    ensures AdvanceJob(w, s, job, random) == Drop(s, job)
  {
    hide Issue, RevokeForRefresh;
  }

  lemma NoSuchJob(w: World, s: State, job: nat, random: seq<Byte>)
    requires job !in s.jobs
    ensures AdvanceJob(w, s, job, random) == s
  {
  }

  lemma RevokeMatches(w: World, a: State, b: State, token: string, credentials: Credentials)
    requires Match(a, b)
    ensures Match(RevokeToken(w, a, token, credentials), RevokeToken(w, b, token, credentials))
  {
    DeleteMatches(a.now, a.table, b.table, HashToken(w.lib, token));
    hide RowsMatch, CodesMatch, JobsMatch, AuthenticateClient, HashToken;
  }

  lemma RingMatches(a: State, b: State, ring: Ring)
    requires Match(a, b)
    ensures Match(a.(ring := ring), b.(ring := ring))
  {
    hide RowsMatch, CodesMatch, JobsMatch, LogsMatch;
  }

  lemma RotateMatches(a: State, b: State, e: Event)
    requires Match(a, b) && e.RotateKey?
    ensures Match(Rotate(a, e), Rotate(b, e))
  {
    assert NextRing(a, e) == NextRing(b, e) by { hide RowsMatch, CodesMatch, JobsMatch, LogsMatch, Rotated; }
    RingMatches(a, b, NextRing(a, e));
    hide Match, NextRing;
  }

  lemma RestartMatches(a: State, b: State, ring: Ring)
    requires Match(a, b) && Settled(a)
    ensures Match(Restarted(a, ring), Restarted(Persisted(b), ring))
  {
    MatchParts(a, b);
    RowsFlip(a.now, a.table, a.disk);
    RowsChain(a.now, a.disk, a.table, b.table);
    hide RowsMatch, LogsMatch;
  }

  lemma PersistedMatches(a: State, b: State)
    requires Match(a, b)
    ensures Match(Persisted(a), b)
  {
    hide RowsMatch, CodesMatch, JobsMatch, LogsMatch;
  }

  lemma BackgroundMatches(w: World, a: State, b: State, e: Event)
    requires Match(a, b) && Allowed(w, a, e) && !IsCleanup(e)
    requires !e.LogIn? && !e.BeginExchange? && !e.BeginRefresh? && !e.Advance? && !e.Restart?
    ensures Match(Background(w, a, e), Background(w, b, e))
  {
    match e
    case Tick(to) => TickMatches(a, b, to);
    case Fail(job) => DropMatches(a, b, job);
    case Revoke(token, credentials, _) => RevokeMatches(w, a, b, token, credentials);
    case RevokeSubject(subject, _) =>
      SubjectMatches(a.now, a.table, b.table, subject);
      TableMatches(a, b, Next(a.table, DeleteWhereSubject(subject)), Next(b.table, DeleteWhereSubject(subject)));
    case Present(token) => SeenMatches(a, b, token);
    case RotateKey(_, _, _) => RotateMatches(a, b, e);
    case PruneKeys =>
      assert a.now == b.now && a.ring == b.ring;
      RingMatches(a, b, Pruned(a.ring, a.now - w.gracePeriod));
    hide Match, RevokeToken, Next, Drop, SweepCodes, Rotate, Pruned, RowsMatch;
  }

  lemma SweepMatches(a: State, b: State, asOf: Time)
    requires Match(a, b) && asOf <= a.now
    ensures Match(SweepTable(a, asOf), b)
  {
    SweptMatches(a.now, a.table, b.table, asOf);
    hide RowsMatch, CodesMatch, JobsMatch, LogsMatch, Next;
  }

  lemma CleanupMatches(w: World, a: State, b: State, e: Event)
    requires Match(a, b) && Allowed(w, a, e) && IsCleanup(e)
    ensures Match(Act(w, a, e), b)
  {
    if e.SweepRows? {
      SweepMatches(a, b, e.asOf);
    } else {
      PrunedMatches(a, b);
    }
    hide Match, Next, SweepCodes, SweepTable, RowsMatch, InsertCode, TakeCode, CheckRefresh, AdvanceJob, Restarted;
  }

  lemma ActMatches(w: World, a: State, b: State, e: Event)
    requires Match(a, b) && Allowed(w, a, e) && a.jobs.Keys <= a.log.used && (e.Restart? ==> Settled(a))
    ensures Match(Act(w, a, e), LazyStep(w, b, e))
  {
    hide InsertCode, TakeCode, CheckRefresh, AdvanceJob, Background, Restarted, Insert, Match, Settled, Persisted;
    match e
    case LogIn(_, _, _, _, _, _) => LogInMatches(w, a, b, e);
    case BeginExchange(job, x) => TakeCodeMatches(w, a, b, job, x);
    case BeginRefresh(job, token, credentials) => CheckMatches(w, a, b, job, token, credentials);
    case Advance(job, random, _) => AdvanceMatches(w, a, b, job, random);
    case Restart(ring) => RestartMatches(a, b, ring);
    case _ =>
      if IsCleanup(e) { CleanupMatches(w, a, b, e); } else { BackgroundMatches(w, a, b, e); }
  }

  lemma StepMatches(w: World, a: State, b: State, e: Event)
    requires Match(a, b) && Allowed(w, a, e) && a.jobs.Keys <= a.log.used && (e.Restart? ==> Settled(a))
    ensures Match(Step(w, a, e), LazyStep(w, b, e))
  {
    hide Act, Step, LazyStep, Saves, Match, Settled, Persisted, Allowed;
    StepIs(w, a, e);
    ActMatches(w, a, b, e);
    PersistedMatches(Act(w, a, e), LazyStep(w, b, e));
  }

  lemma JobsUsed(s: State)
    requires Once(s)
    ensures s.jobs.Keys <= s.log.used
  {
  }

  // ---- the disk ----

  /** Every restart finds the live rows of the table on the disk, and no others. */
  ghost predicate SettledRestarts(w: World, s: State, es: seq<Event>)
    decreases |es|
  {
    es != [] ==> (es[0].Restart? ==> Settled(s)) && SettledRestarts(w, Step(w, s, es[0]), es[1..])
  }

  /** Every snapshot that is due succeeds. */
  ghost predicate DueSaved(w: World, s: State, es: seq<Event>)
    decreases |es|
  {
    es != [] ==> (SnapshotDue(w, s, es[0]) ==> SnapshotSucceeds(es[0])) && DueSaved(w, Step(w, s, es[0]), es[1..])
  }

  lemma NoChange(t: Table, op: Op)
    requires !Changes(t, op)
    ensures Next(t, op) == t
  {
  }

  lemma UnchangedTable(w: World, s: State, e: Event)
    requires !SnapshotDue(w, s, e)
    ensures AfterOp(s.table, TableOp(w, s, e)) == s.table
  {
    hide TableOp, Changes, Next;
    if TableOp(w, s, e).Some? { NoChange(s.table, TableOp(w, s, e).value); }
  }

  lemma RestartSettled(s: State, ring: Ring)
    requires FreshRing(ring)
    ensures Settled(Restarted(s, ring))
  {
    RestartEffect(s, ring);
    SelfMatches(s.now, s.disk);
    hide RowsMatch, Restarted, FreshRing;
  }

  lemma StepSettled(w: World, s: State, e: Event)
    requires Settled(s) && Allowed(w, s, e) && (SnapshotDue(w, s, e) ==> SnapshotSucceeds(e))
    ensures Settled(Step(w, s, e))
  {
    var s' := Step(w, s, e);
    StepIs(w, s, e);
    if e.Restart? {
      assert s' == Restarted(s, e.ring) by { hide Restarted; }
      RestartSettled(s, e.ring);
    } else {
      StepTable(w, s, e);
      StepTime(w, s, e);
      hide Act, Step, RowsMatch, TableOp, AfterOp, SnapshotDue, Allowed;
      if SnapshotDue(w, s, e) {
        SelfMatches(s'.now, s'.table);
      } else {
        UnchangedTable(w, s, e);
        RowsLater(s.now, s'.now, s.table, s.disk);
      }
    }
  }

  /** Started with the disk up to date, a run that saves every snapshot due keeps it so. */
  lemma {:induction false} SavedIsSettled(w: World, s: State, es: seq<Event>)
    requires Settled(s) && AllowedRun(w, s, es) && DueSaved(w, s, es)
    ensures SettledRestarts(w, s, es) && Settled(Run(w, s, es))
    decreases |es|
  {
    hide Settled, Step, Allowed, SnapshotDue, SnapshotSucceeds;
    if es != [] {
      StepSettled(w, s, es[0]);
      SavedIsSettled(w, Step(w, s, es[0]), es[1..]);
    }
  }

  // ---- runs ----

  lemma {:induction false} RunMatches(w: World, a: State, b: State, es: seq<Event>)
    requires Match(a, b) && Once(a) && AllowedRun(w, a, es) && (NoRestart(es) || SettledRestarts(w, a, es))
    ensures Match(Run(w, a, es), LazyRun(w, b, es))
    decreases |es|
  {
    hide Match, Settled, Once, Step, LazyStep, Allowed;
    if es != [] {
      JobsUsed(a);
      StepMatches(w, a, b, es[0]);
      StepOnce(w, a, es[0]);
      RunMatches(w, Step(w, a, es[0]), LazyStep(w, b, es[0]), es[1..]);
    }
  }

  // ---- the theorem ----

  /** The event whatever becomes of its snapshot. */
  function Forget(e: Event): Event {
    match e
    case Advance(job, random, _) => Advance(job, random, false)
    case Revoke(token, credentials, _) => Revoke(token, credentials, false)
    case RevokeSubject(subject, _) => RevokeSubject(subject, false)
    case _ => e
  }

  /** The run with its sweeps and prunings taken out, whatever becomes of its snapshots. */
  function Essential(es: seq<Event>): seq<Event> {
    if es == [] then [] else (if IsCleanup(es[0]) then [] else [Forget(es[0])]) + Essential(es[1..])
  }

  lemma LazyForgets(w: World, s: State, e: Event)
    ensures LazyStep(w, s, e) == LazyStep(w, s, Forget(e)) && (IsCleanup(Forget(e)) <==> IsCleanup(e))
  {
    hide InsertCode, TakeCode, CheckRefresh, AdvanceJob, Restarted, Insert, RevokeToken, Next;
  }

  lemma {:induction false} LazyIsEssential(w: World, s: State, es: seq<Event>)
    ensures LazyRun(w, s, es) == LazyRun(w, s, Essential(es))
    decreases |es|
  {
    hide LazyStep, Forget;
    if es != [] {
      LazyIsEssential(w, LazyStep(w, s, es[0]), es[1..]);
      if IsCleanup(es[0]) {
        assert LazyStep(w, s, es[0]) == s by { SkipsCleanup(w, s, es[0]); }
        assert Essential(es) == Essential(es[1..]);
      } else {
        LazyForgets(w, s, es[0]);
        assert Essential(es) == [Forget(es[0])] + Essential(es[1..]);
        assert Essential(es)[1..] == Essential(es[1..]);
      }
    }
  }

  lemma SkipsCleanup(w: World, s: State, e: Event)
    requires IsCleanup(e)
    ensures LazyStep(w, s, e) == s
  {
  }

  /** What clients and resource servers can tell: validations of every token now or later, tokens issued, exchanges passed. */
  ghost predicate LooksSame(w: World, s: State, s': State) {
    && s.now == s'.now
    && (forall token, now :: s.now <= now ==>
          ValidateAny(w.lib, Signatures(s), s.table, s.ring, token, now)
          == ValidateAny(w.lib, Signatures(s'), s'.table, s'.ring, token, now))
    && s.notary == s'.notary && s.delivered == s'.delivered
    && s.log.redeemed == s'.log.redeemed && s.log.started == s'.log.started && s.log.origins == s'.log.origins
  }

  lemma MatchLooksSame(w: World, a: State, b: State)
    requires Match(a, b)
    ensures LooksSame(w, a, b)
  {
    forall token, now | a.now <= now
      ensures ValidateAny(w.lib, Signatures(a), a.table, a.ring, token, now) == ValidateAny(w.lib, Signatures(b), b.table, b.ring, token, now)
    {
      RowsLater(a.now, now, a.table, b.table);
      assert SameAt(now, a.table, b.table, HashToken(w.lib, token));
      hide RowsMatch, CodesMatch, JobsMatch, LogsMatch, Lookup, HashToken, ValidateJwt;
    }
    hide RowsMatch, CodesMatch, JobsMatch, ValidateAny, Signatures;
  }

  /**
   Two runs from a fresh server that differ only in where rows are swept and codes pruned, and in which
   snapshots succeed, cannot be told apart: not by validating tokens, at the end or later, nor by what
   any request was granted. If they have restarts, each must find the live rows of the table on the disk.
   */
  lemma CleanupInvisible(w: World, s0: State, es: seq<Event>, fs: seq<Event>)
    requires Init(w, s0) && AllowedRun(w, s0, es) && AllowedRun(w, s0, fs) && Essential(es) == Essential(fs)
    requires NoRestart(es) || SettledRestarts(w, s0, es)
    requires NoRestart(fs) || SettledRestarts(w, s0, fs)
    ensures LooksSame(w, Run(w, s0, es), Run(w, s0, fs))
  {
    assert Once(s0) && Match(s0, s0) by { hide ClockOk; }
    hide Init, Once, Match, AllowedRun, Run, LazyRun, Essential, LooksSame, SettledRestarts;
    RunMatches(w, s0, s0, es);
    RunMatches(w, s0, s0, fs);
    LazyIsEssential(w, s0, es);
    LazyIsEssential(w, s0, fs);
    MatchLooksSame(w, Run(w, s0, es), LazyRun(w, s0, es));
    MatchLooksSame(w, Run(w, s0, fs), LazyRun(w, s0, fs));
    BothLookSame(w, Run(w, s0, es), LazyRun(w, s0, es), Run(w, s0, fs));
  }

  /** So it is when every snapshot that is due succeeds. */
  lemma SavedRunsLookSame(w: World, s0: State, es: seq<Event>, fs: seq<Event>)
    requires Init(w, s0) && AllowedRun(w, s0, es) && AllowedRun(w, s0, fs) && Essential(es) == Essential(fs)
    requires DueSaved(w, s0, es) && DueSaved(w, s0, fs)
    ensures LooksSame(w, Run(w, s0, es), Run(w, s0, fs))
  {
    assert Settled(s0) by { SelfMatches(s0.now, s0.table); hide ClockOk, RowsMatch; }
    hide Init, Settled, AllowedRun, Run, Essential, LooksSame, SettledRestarts, DueSaved;
    SavedIsSettled(w, s0, es);
    SavedIsSettled(w, s0, fs);
    CleanupInvisible(w, s0, es, fs);
  }

  lemma BothLookSame(w: World, s: State, middle: State, s': State)
    requires LooksSame(w, s, middle) && LooksSame(w, s', middle)
    ensures LooksSame(w, s, s')
  {
    hide ValidateAny, Signatures;
    forall token, now | s.now <= now
      ensures ValidateAny(w.lib, Signatures(s), s.table, s.ring, token, now) == ValidateAny(w.lib, Signatures(s'), s'.table, s'.ring, token, now)
    {
      assert ValidateAny(w.lib, Signatures(s'), s'.table, s'.ring, token, now)
             == ValidateAny(w.lib, Signatures(middle), middle.table, middle.ring, token, now);
    }
  }
}
