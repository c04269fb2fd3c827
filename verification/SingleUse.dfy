/** Authorization codes are single-use, however many exchange handlers overlap. */
module SingleUse {
  import opened Wrappers
  import opened Base64Url
  import opened Stores
  import opened Grants
  import opened Sidecar

  /** A stored code belongs to a login, and no exchange has looked it up yet. */
  ghost predicate Untouched(s: State, c: string) {
    c in s.log.logins && c !in s.log.looked
  }

  ghost predicate TakenBy(s: State, c: string, j: nat) {
    c in s.log.taken && s.log.taken[c] == j
  }

  /** A handler between the lock and the checks is the one that took its code, and has redeemed nothing. */
  ghost predicate OwnsItsCode(s: State, j: nat)
    requires j in s.jobs
  {
    s.jobs[j].Looked? ==> TakenBy(s, s.jobs[j].x.code, j) && j !in s.log.started
  }

  ghost predicate RedeemedBy(s: State, c: string, j: nat) {
    j in s.log.started && s.log.started[j] == c
  }

  ghost predicate Once(s: State) {
    && (forall c :: c in s.codes ==> Untouched(s, c))
    && (forall j :: j in s.jobs ==> OwnsItsCode(s, j))
    && (forall j :: j in s.log.started ==> TakenBy(s, s.log.started[j], j))
    && (forall c :: c in s.log.redeemed ==> RedeemedBy(s, c, s.log.redeemed[c].job))
    && s.log.logins.Keys <= s.log.seen && s.log.looked <= s.log.seen && s.log.taken.Keys <= s.log.looked
    && s.jobs.Keys <= s.log.used && s.log.started.Keys <= s.log.used
  }

  lemma IssueOnce(s: State, s': State, job: nat)
    requires Once(s) && job in s.jobs && OnlyIssues(s, s', job)
    ensures Once(s')
  {
    forall j | j in s'.jobs ensures OwnsItsCode(s', j) {
      assert j != job ==> OwnsItsCode(s, j);
    }
  }

  lemma RedeemOnce(w: World, s: State, s': State, job: nat, x: Exchange, client: Client, ac: AuthCode)
    requires Once(s) && job in s.jobs && s.jobs[job] == Looked(x, client, ac)
    requires Redeemed(w, s, s', job, x, client, ac)
    ensures Once(s')
  {
    hide CheckExchange;
    assert OwnsItsCode(s, job);
    forall j | j in s'.jobs ensures OwnsItsCode(s', j) {
      assert j != job ==> OwnsItsCode(s, j);
    }
    forall c | c in s'.log.redeemed ensures RedeemedBy(s', c, s'.log.redeemed[c].job) {
      assert c in s.log.redeemed ==> RedeemedBy(s, c, s.log.redeemed[c].job);
    }
  }

  lemma AdvanceOnce(w: World, s: State, job: nat, random: seq<Byte>)
    requires Once(s)
    ensures Once(AdvanceJob(w, s, job, random))
  {
    hide Once, Issue, Redeem, Follows, StoredRow;
    if job in s.jobs {
      match s.jobs[job]
      case Looked(x, client, ac) =>
        RedeemEffect(w, s, job, x, client, ac);
        RedeemOnce(w, s, Redeem(w, s, job, x, client, ac), job, x, client, ac);
      case Validated(client, token, sess, root) =>
        IssueOnce(s, RevokeForRefresh(w, s, job, client, token, sess, root), job);
      case Issuing(g, resp, stage) =>
        IssueEffect(w, s, job, g, resp, stage, random);
        IssueOnce(s, Issue(w, s, job, g, resp, stage, random), job);
    }
  }

  lemma TakeOnce(s: State, s': State, job: nat, x: Exchange, client: Client)
    requires Once(s) && job !in s.log.used && TookCode(s, s', job, x, client)
    ensures Once(s')
  {
    forall c | c in s'.codes ensures Untouched(s', c) {
      assert Untouched(s, c);
    }
    forall j | j in s'.jobs ensures OwnsItsCode(s', j) {
      assert j in s.jobs ==> OwnsItsCode(s, j);
      assert x.code in s.codes ==> Untouched(s, x.code);
    }
    forall j | j in s'.log.started ensures TakenBy(s', s'.log.started[j], j) {
      assert TakenBy(s, s.log.started[j], j);
      assert x.code in s.codes ==> Untouched(s, x.code);
    }
  }

  lemma TakeCodeOnce(w: World, s: State, job: nat, x: Exchange)
    requires Once(s) && job !in s.log.used
    ensures Once(TakeCode(w, s, job, x))
  {
    hide AuthenticateClient, Take, Once;
    if AuthenticateClient(w.clients, x.credentials).Some? {
      var client := AuthenticateClient(w.clients, x.credentials).value;
      TakeEffect(s, job, x, client);
      TakeOnce(s, Take(s, job, x, client), job, x, client);
    }
  }

  lemma InsertOnce(s: State, s': State, code: string, login: Login)
    requires Once(s) && code !in s.log.seen && Inserted(s, s', code, login)
    ensures Once(s')
  {
    forall c | c in s'.codes ensures Untouched(s', c) {
      assert c in s.codes ==> Untouched(s, c);
    }
    forall j | j in s'.jobs ensures OwnsItsCode(s', j) {
      assert OwnsItsCode(s, j);
    }
  }

  lemma LogInOnce(w: World, s: State, e: Event)
    requires Once(s) && e.LogIn? && Allowed(w, s, e)
    ensures Once(InsertCode(w, s, e))
  {
    hide InsertCode, Once, NewAuthCode, Inserted, Encode;
    InsertEffect(w, s, e);
    var s' := InsertCode(w, s, e);
    if s' != s {
      var client, subject :|
        && ValidateAuthRequest(w.clients, e.query) == Ok(client)
        && w.authenticate(e.username, e.password) == Some(subject)
        && s'.now == e.expiryClock
        && Inserted(s, s', Encode(e.random),
                    Login(NewAuthCode(e.query, client, subject, e.authClock, e.expiryClock + w.cfg.authCodeTTL),
                          e.query, e.username, e.password, e.authClock, e.expiryClock));
      InsertOnce(s, s', Encode(e.random),
                 Login(NewAuthCode(e.query, client, subject, e.authClock, e.expiryClock + w.cfg.authCodeTTL),
                       e.query, e.username, e.password, e.authClock, e.expiryClock));
    }
  }

  lemma CheckOnce(w: World, s: State, s': State, job: nat, token: string)
    requires Once(s) && job !in s.log.used && CheckedRefresh(w, s, s', job, token)
    ensures Once(s')
  {
    hide ValidateOpaque, HashToken, RootOf, IsClient;
    forall j | j in s'.jobs ensures OwnsItsCode(s', j) {
      assert j in s.jobs ==> OwnsItsCode(s, j);
    }
  }

  lemma BackgroundOnce(s: State, s': State)
    requires Once(s) && OnlyBackground(s, s')
    ensures Once(s')
  {
    forall c | c in s'.codes ensures Untouched(s', c) {
      assert Untouched(s, c);
    }
    forall j | j in s'.jobs ensures OwnsItsCode(s', j) {
      assert OwnsItsCode(s, j);
    }
  }

  lemma RestartOnce(s: State, s': State)
    requires Once(s) && OnlyRestarts(s, s')
    ensures Once(s')
  {
  }

  lemma ActOnce(w: World, s: State, e: Event)
    requires Once(s) && Allowed(w, s, e)
    ensures Once(Act(w, s, e))
  {
    hide InsertCode, TakeCode, CheckRefresh, AdvanceJob, Background, Restarted, Once;
    match e
    case LogIn(_, _, _, _, _, _) => LogInOnce(w, s, e);
    case BeginExchange(job, x) => TakeCodeOnce(w, s, job, x);
    case BeginRefresh(job, token, credentials) =>
      CheckEffect(w, s, job, token, credentials);
      CheckOnce(w, s, CheckRefresh(w, s, job, token, credentials), job, token);
    case Advance(job, random, _) => AdvanceOnce(w, s, job, random);
    case Restart(ring) =>
      RestartEffect(s, ring);
      RestartOnce(s, Restarted(s, ring));
    case _ =>
      BackgroundEffect(w, s, e);
      BackgroundOnce(s, Background(w, s, e));
  }

  lemma StepOnce(w: World, s: State, e: Event)
    requires Once(s) && Allowed(w, s, e)
    ensures Once(Step(w, s, e))
  {
    StepIs(w, s, e);
    ActOnce(w, s, e);
    hide Act, Step, Saves, Once, Persisted;
    PersistedEffect(Act(w, s, e));
    if Saves(w, s, e) { BackgroundOnce(Act(w, s, e), Step(w, s, e)); }
  }
}
