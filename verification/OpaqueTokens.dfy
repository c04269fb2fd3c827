/**
 What happens to the rows of opaque tokens over whole runs: a token that has stopped validating
 validates again exactly if a restart loads its row back from a snapshot taken before, whatever
 handlers overlap; and opaque tokens and JWTs are never confused.
 */
module OpaqueTokens {
  import opened Wrappers
  import opened Clock
  import opened Base64Url
  import opened Primitives
  import opened Jwt
  import opened KeyRing
  import opened Sessions
  import opened Stores
  import opened Grants
  import opened Sidecar
  import Text

  // ---- the invariant: every row is filed under the hash of a dot-free token that has been seen ----

  ghost predicate RowNamed(w: World, s: State, k: string) {
    && k in s.log.origins && HashToken(w.lib, s.log.origins[k].token) == k
    && s.log.origins[k].token in s.log.seen && Text.Without(s.log.origins[k].token, '.')
  }

  /** Table and disk do not disagree about a row. */
  ghost predicate Agree(t: Table, disk: Table) {
    forall k :: k in t && k in disk ==> t[k] == disk[k]
  }

  ghost predicate JobSeen(s: State, job: Job) {
    job.Validated? ==> job.token in s.log.seen
  }

  ghost predicate RowsNamed(w: World, s: State) {
    && (forall k :: k in s.table || k in s.disk ==> RowNamed(w, s, k))
    && Agree(s.table, s.disk)
    && (forall j :: j in s.jobs ==> JobSeen(s, s.jobs[j]))
  }

  /** Rows are dropped or, for a token nobody has seen, added; none is ever rewritten. */
  ghost predicate RowsSettle(w: World, s: State, s': State) {
    && s.now <= s'.now && s.log.seen <= s'.log.seen
    && (forall k :: k in s'.table && k in s.table ==> s'.table[k] == s.table[k])
    && (forall k :: k in s'.table && k !in s.table ==>
          exists token :: token !in s.log.seen && token in s'.log.seen && HashToken(w.lib, token) == k)
    && (s'.disk == s.disk || s'.disk == s'.table)
  }

  ghost predicate JobsFrom(s: State, s': State) {
    forall j :: j in s'.jobs ==> (j in s.jobs && s'.jobs[j] == s.jobs[j]) || JobSeen(s', s'.jobs[j])
  }

  lemma JobsStaySeen(w: World, s: State, s': State)
    requires RowsNamed(w, s) && JobsFrom(s, s') && s.log.seen <= s'.log.seen
    ensures forall j :: j in s'.jobs ==> JobSeen(s', s'.jobs[j])
  {
    hide RowNamed, Agree;
    forall j | j in s'.jobs ensures JobSeen(s', s'.jobs[j]) {
      assert j in s.jobs ==> JobSeen(s, s.jobs[j]);
    }
  }

  lemma ShrinkingSettles(w: World, s: State, s': State)
    requires RowsNamed(w, s) && s.now <= s'.now && s.log.seen <= s'.log.seen && s'.log.origins == s.log.origins
    requires forall k :: k in s'.table ==> k in s.table && s'.table[k] == s.table[k]
    requires s'.disk == s.disk || s'.disk == s'.table
    requires JobsFrom(s, s')
    ensures RowsNamed(w, s') && RowsSettle(w, s, s')
  {
    JobsStaySeen(w, s, s');
    hide HashToken, Text.Without, JobSeen, JobsFrom;
    forall k | k in s'.table || k in s'.disk ensures RowNamed(w, s', k) {
      assert RowNamed(w, s, k);
    }
  }

  lemma RestartSettles(w: World, s: State, s': State)
    requires RowsNamed(w, s) && OnlyRestarts(s, s')
    ensures RowsNamed(w, s')
  {
    hide HashToken, Text.Without;
    forall k | k in s'.table || k in s'.disk ensures RowNamed(w, s', k) {
      assert RowNamed(w, s, k);
    }
  }

  /** A token that has not been seen has no row, in the table or on the disk. */
  lemma UnseenHasNoRow(w: World, s: State, token: string)
    requires HashInjective(w.lib) && RowsNamed(w, s) && token !in s.log.seen
    ensures HashToken(w.lib, token) !in s.table && HashToken(w.lib, token) !in s.disk
  {
    var key := HashToken(w.lib, token);
    if key in s.table || key in s.disk {
      assert RowNamed(w, s, key);
      HashTokenInjective(w.lib, token, s.log.origins[key].token);
    }
  }

  lemma StoringNames(w: World, s: State, s': State, g: Grant, at: Time, ttl: Time, token: string)
    requires RowsNamed(w, s) && s.log.seen <= s'.log.seen && JobsFrom(s, s')
    requires StoredRow(w, s, s', g, at, ttl, token) && s'.disk == s.disk
    requires HashToken(w.lib, token) !in s.disk && Text.Without(token, '.')
    ensures RowsNamed(w, s')
  {
    JobsStaySeen(w, s, s');
    hide HashToken, Text.Without, OpaqueSession, JobSeen, JobsFrom;
    forall k | k in s'.table || k in s'.disk ensures RowNamed(w, s', k) {
      assert k != HashToken(w.lib, token) ==> RowNamed(w, s, k);
    }
  }

  lemma StoringSettles(w: World, s: State, s': State, g: Grant, at: Time, ttl: Time, random: seq<Byte>)
    requires HashInjective(w.lib) && RowsNamed(w, s) && s.now <= s'.now && s.log.seen <= s'.log.seen
    requires StoredRow(w, s, s', g, at, ttl, Encode(random)) && Encode(random) !in s.log.seen && s'.disk == s.disk
    requires JobsFrom(s, s')
    ensures RowsNamed(w, s') && RowsSettle(w, s, s')
  {
    SegmentDotFree(random);
    UnseenHasNoRow(w, s, Encode(random));
    hide HashToken, Text.Without, Encode, OpaqueSession, HashInjective, RowsNamed, JobsFrom;
    StoringNames(w, s, s', g, at, ttl, Encode(random));
    assert Encode(random) in s'.log.seen;
  }

  lemma IssueSettles(w: World, s: State, s': State, job: nat, g: Grant, stage: Stage, random: seq<Byte>)
    requires HashInjective(w.lib) && RowsNamed(w, s) && Issued(w, s, s', job, g, stage, random)
    requires stage.Timed? ==> Encode(random) !in s.log.seen
    ensures RowsNamed(w, s') && RowsSettle(w, s, s')
  {
    assert JobsFrom(s, s') by { hide RowsNamed, Encode, Follows, StoredRow, SameRows; }
    hide RowsNamed, RowsSettle, HashInjective, Encode, StoredRow, Follows, JobsFrom, OtherJobs;
    if stage.Timed? {
      StoringSettles(w, s, s', g, stage.at, stage.ttl, random);
    } else {
      ShrinkingSettles(w, s, s');
    }
  }

  lemma AdvanceSettles(w: World, s: State, job: nat, random: seq<Byte>)
    requires HashInjective(w.lib) && RowsNamed(w, s) && (DrawsToken(s, job) ==> Encode(random) !in s.log.seen)
    ensures RowsNamed(w, AdvanceJob(w, s, job, random)) && RowsSettle(w, s, AdvanceJob(w, s, job, random))
  {
    hide RowsNamed, RowsSettle, HashInjective, Issue, Redeem, RevokeForRefresh, Encode, Issued, CheckExchange;
    if job in s.jobs {
      match s.jobs[job]
      case Looked(x, client, ac) =>
        RedeemEffect(w, s, job, x, client, ac);
        ShrinkingSettles(w, s, Redeem(w, s, job, x, client, ac));
      case Validated(client, token, sess, root) =>
        RevokeRefreshEffect(w, s, job, client, token, sess, root);
        ShrinkingSettles(w, s, RevokeForRefresh(w, s, job, client, token, sess, root));
      case Issuing(g, resp, stage) =>
        IssueEffect(w, s, job, g, resp, stage, random);
        IssueSettles(w, s, Issue(w, s, job, g, resp, stage, random), job, g, stage, random);
    } else {
      ShrinkingSettles(w, s, s);
    }
  }

  lemma LogInSettles(w: World, s: State, e: Event)
    requires RowsNamed(w, s) && e.LogIn? && Allowed(w, s, e)
    ensures RowsNamed(w, InsertCode(w, s, e)) && RowsSettle(w, s, InsertCode(w, s, e))
  {
    InsertEffect(w, s, e);
    hide RowsNamed, RowsSettle, InsertCode, NewAuthCode, ValidateAuthRequest, Encode;
    ShrinkingSettles(w, s, InsertCode(w, s, e));
  }

  lemma TakeSettles(w: World, s: State, job: nat, x: Exchange)
    requires RowsNamed(w, s)
    ensures RowsNamed(w, TakeCode(w, s, job, x)) && RowsSettle(w, s, TakeCode(w, s, job, x))
  {
    hide RowsNamed, RowsSettle, AuthenticateClient, Take;
    if AuthenticateClient(w.clients, x.credentials).Some? {
      TakeEffect(s, job, x, AuthenticateClient(w.clients, x.credentials).value);
    }
    ShrinkingSettles(w, s, TakeCode(w, s, job, x));
  }

  lemma CheckSettles(w: World, s: State, s': State, job: nat, token: string)
    requires RowsNamed(w, s) && CheckedRefresh(w, s, s', job, token)
    ensures RowsNamed(w, s') && RowsSettle(w, s, s')
  {
    hide RowsNamed, RowsSettle, ValidateOpaque, HashToken, RootOf, IsClient;
    ShrinkingSettles(w, s, s');
  }

  lemma ActSettles(w: World, s: State, e: Event)
    requires HashInjective(w.lib) && RowsNamed(w, s) && Allowed(w, s, e)
    ensures RowsNamed(w, Act(w, s, e)) && (!e.Restart? ==> RowsSettle(w, s, Act(w, s, e)))
  {
    hide InsertCode, TakeCode, CheckRefresh, AdvanceJob, Background, Restarted, RowsNamed, RowsSettle, HashInjective, Encode;
    match e
    case LogIn(_, _, _, _, _, _) => LogInSettles(w, s, e);
    case BeginExchange(job, x) => TakeSettles(w, s, job, x);
    case BeginRefresh(job, token, credentials) =>
      CheckEffect(w, s, job, token, credentials);
      CheckSettles(w, s, CheckRefresh(w, s, job, token, credentials), job, token);
    case Advance(job, random, _) => AdvanceSettles(w, s, job, random);
    case Restart(ring) =>
      RestartEffect(s, ring);
      RestartSettles(w, s, Restarted(s, ring));
    case _ =>
      BackgroundEffect(w, s, e);
      ShrinkingSettles(w, s, Background(w, s, e));
  }

  lemma PersistedSettles(w: World, s: State, acted: State)
    requires RowsNamed(w, acted)
    ensures RowsNamed(w, Persisted(acted)) && (RowsSettle(w, s, acted) ==> RowsSettle(w, s, Persisted(acted)))
  {
    hide HashToken, Text.Without;
    forall k | k in acted.table ensures RowNamed(w, Persisted(acted), k) {
      assert RowNamed(w, acted, k);
    }
  }

  lemma StepSettles(w: World, s: State, e: Event)
    requires HashInjective(w.lib) && RowsNamed(w, s) && Allowed(w, s, e)
    ensures RowsNamed(w, Step(w, s, e)) && (!e.Restart? ==> RowsSettle(w, s, Step(w, s, e)))
  {
    StepIs(w, s, e);
    ActSettles(w, s, e);
    hide Act, Step, Saves, RowsNamed, RowsSettle, HashInjective;
    if Saves(w, s, e) { PersistedSettles(w, s, Act(w, s, e)); }
  }

  lemma {:induction false} RunNamed(w: World, s: State, es: seq<Event>)
    requires HashInjective(w.lib) && RowsNamed(w, s) && AllowedRun(w, s, es)
    ensures RowsNamed(w, Run(w, s, es))
    decreases |es|
  {
    hide RowsNamed, Step, Allowed, RowsSettle, HashInjective;
    if es != [] {
      StepSettles(w, s, es[0]);
      RunNamed(w, Step(w, s, es[0]), es[1..]);
    }
  }

  lemma ReachableNamed(w: World, s: State)
    requires WellConfigured(w) && Reachable(w, s)
    ensures RowsNamed(w, s)
  {
    hide ClockOk;
    var s0, es :| Init(w, s0) && AllowedRun(w, s0, es) && s == Run(w, s0, es);
    assert RowsNamed(w, s0);
    RunNamed(w, s0, es);
  }

  // ---- when a token comes back ----

  predicate Valid(w: World, s: State, token: string) {
    ValidateOpaque(w.lib, s.table, token, s.now).Some?
  }

  /** The step is a restart, and the snapshot it loads still has the token's row, not yet expired. */
  predicate Reloads(w: World, s: State, e: Event, token: string) {
    e.Restart? && ValidateOpaque(w.lib, s.disk, token, s.now).Some?
  }

  predicate EverReloads(w: World, s: State, es: seq<Event>, token: string)
    decreases |es|
  {
    es != [] && (Reloads(w, s, es[0], token) || EverReloads(w, Step(w, s, es[0]), es[1..], token))
  }

  /** The token validates at some point of the run. */
  predicate EverValid(w: World, s: State, es: seq<Event>, token: string)
    decreases |es|
  {
    Valid(w, s, token) || (es != [] && EverValid(w, Step(w, s, es[0]), es[1..], token))
  }

  lemma DeadStaysDead(w: World, s: State, s': State, token: string)
    requires HashInjective(w.lib) && RowsSettle(w, s, s') && token in s.log.seen && !Valid(w, s, token)
    ensures !Valid(w, s', token) && token in s'.log.seen
  {
    var key := HashToken(w.lib, token);
    if key in s'.table && key !in s.table {
      var t :| t !in s.log.seen && t in s'.log.seen && HashToken(w.lib, t) == key;
      HashTokenInjective(w.lib, t, token);
    }
  }

  lemma RestartRevives(w: World, s: State, e: Event, token: string)
    requires e.Restart? && Allowed(w, s, e)
    ensures Valid(w, Step(w, s, e), token) <==> Reloads(w, s, e, token)
    ensures Step(w, s, e).log.seen == s.log.seen
  {
    RestartEffect(s, e.ring);
    hide HashToken;
  }

  lemma StepRevives(w: World, s: State, e: Event, token: string)
    requires HashInjective(w.lib) && RowsNamed(w, s) && Allowed(w, s, e) && token in s.log.seen && !Valid(w, s, token)
    ensures Valid(w, Step(w, s, e), token) <==> Reloads(w, s, e, token)
    ensures token in Step(w, s, e).log.seen
  {
    StepSettles(w, s, e);
    hide Step, RowsNamed, HashInjective, RowsSettle, Allowed;
    if e.Restart? {
      RestartRevives(w, s, e, token);
    } else {
      DeadStaysDead(w, s, Step(w, s, e), token);
    }
  }

  lemma {:induction false} RunRevives(w: World, s: State, es: seq<Event>, token: string)
    requires HashInjective(w.lib) && RowsNamed(w, s) && AllowedRun(w, s, es) && token in s.log.seen && !Valid(w, s, token)
    ensures EverValid(w, s, es, token) <==> EverReloads(w, s, es, token)
    ensures !EverReloads(w, s, es, token) ==> !Valid(w, Run(w, s, es), token)
    decreases |es|
  {
    hide RowsNamed, Step, Allowed, RowsSettle, HashInjective, Valid, Reloads;
    if es != [] {
      StepSettles(w, s, es[0]);
      StepRevives(w, s, es[0], token);
      if Valid(w, Step(w, s, es[0]), token) {
        assert EverValid(w, Step(w, s, es[0]), es[1..], token);
      } else {
        RunRevives(w, Step(w, s, es[0]), es[1..], token);
      }
    }
  }

  /**
   Once a token that has been minted or presented does not validate, because it was revoked, its
   subject was, it was spent by a refresh, it expired or it never existed, it validates at some later
   point exactly if a restart loads its row from the disk, whatever handlers overlap and whatever
   happens in between.
   */
  lemma NoResurrection(w: World, s: State, es: seq<Event>, token: string)
    requires WellConfigured(w) && Reachable(w, s) && AllowedRun(w, s, es)
    requires token in s.log.seen && !Valid(w, s, token)
    ensures EverValid(w, s, es, token) <==> EverReloads(w, s, es, token)
    ensures !EverReloads(w, s, es, token) ==> !Valid(w, Run(w, s, es), token)
  {
    ReachableNamed(w, s);
    RunRevives(w, s, es, token);
  }

  // ---- what the disk still has ----

  predicate NoRestart(es: seq<Event>) {
    forall i :: 0 <= i < |es| ==> !es[i].Restart?
  }

  /** The table after the operation, if there is one. */
  function AfterOp(t: Table, op: Option<Op>): Table {
    if op.Some? then Next(t, op.value) else t
  }

  /** Some step of the run completes a snapshot. */
  predicate SavesIn(w: World, s: State, es: seq<Event>)
    decreases |es|
  {
    es != [] && (Saves(w, s, es[0]) || SavesIn(w, Step(w, s, es[0]), es[1..]))
  }

  lemma TakeTable(w: World, s: State, job: nat, x: Exchange)
    ensures TakeCode(w, s, job, x).table == s.table && TakeCode(w, s, job, x).disk == s.disk
  {
    hide AuthenticateClient, Take;
    if AuthenticateClient(w.clients, x.credentials).Some? {
      TakeEffect(s, job, x, AuthenticateClient(w.clients, x.credentials).value);
    }
  }

  lemma RevokeTable(w: World, s: State, e: Event)
    requires e.Revoke?
    ensures var s' := RevokeToken(w, s, e.token, e.credentials); s'.table == AfterOp(s.table, TableOp(w, s, e)) && s'.disk == s.disk
  {
    hide AuthenticateClient, HashToken, Next;
  }

  lemma RotateTable(s: State, e: Event)
    requires e.RotateKey?
    ensures Rotate(s, e).table == s.table && Rotate(s, e).disk == s.disk
  {
    hide NextRing;
  }

  lemma AdvanceTable(w: World, s: State, job: nat, random: seq<Byte>)
    ensures var s' := AdvanceJob(w, s, job, random); s'.table == AfterOp(s.table, JobOp(w, s, job, random)) && s'.disk == s.disk
  {
    hide Issue, Redeem, RevokeForRefresh, Encode, Follows, CheckExchange, HashToken, OpaqueSession;
    if job in s.jobs {
      match s.jobs[job]
      case Looked(x, client, ac) => RedeemEffect(w, s, job, x, client, ac);
      case Validated(client, token, sess, root) => RevokeRefreshEffect(w, s, job, client, token, sess, root);
      case Issuing(g, resp, stage) => IssueEffect(w, s, job, g, resp, stage, random);
    }
  }

  lemma ActTable(w: World, s: State, e: Event)
    requires Allowed(w, s, e) && !e.Restart?
    ensures Act(w, s, e).table == AfterOp(s.table, TableOp(w, s, e)) && Act(w, s, e).disk == s.disk
  {
    hide InsertCode, TakeCode, CheckRefresh, AdvanceJob, Encode, Next, RevokeToken, Rotate, Pruned, JobOp;
    match e
    case LogIn(_, _, _, _, _, _) => InsertEffect(w, s, e);
    case BeginExchange(job, x) => TakeTable(w, s, job, x);
    case BeginRefresh(job, token, credentials) => CheckEffect(w, s, job, token, credentials);
    case Advance(job, random, _) => AdvanceTable(w, s, job, random);
    case Revoke(_, _, _) => RevokeTable(w, s, e);
    case RotateKey(_, _, _) => RotateTable(s, e);
    case _ =>
  }

  /** A step runs at most one operation on the table, and the disk follows exactly if its snapshot is due and succeeds. */
  lemma StepTable(w: World, s: State, e: Event)
    requires Allowed(w, s, e) && !e.Restart?
    ensures Step(w, s, e).table == AfterOp(s.table, TableOp(w, s, e))
    ensures Step(w, s, e).disk == if Saves(w, s, e) then Step(w, s, e).table else s.disk
  {
    StepIs(w, s, e);
    ActTable(w, s, e);
    hide Act, Step, Saves, AfterOp, TableOp;
  }

  /** The row of a known token is in the table no more. */
  predicate Gone(w: World, s: State, token: string) {
    token in s.log.seen && HashToken(w.lib, token) !in s.table
  }

  lemma GoneStaysGone(w: World, s: State, s': State, token: string)
    requires HashInjective(w.lib) && RowsSettle(w, s, s') && Gone(w, s, token)
    ensures Gone(w, s', token)
  {
    var key := HashToken(w.lib, token);
    if key in s'.table {
      var t :| t !in s.log.seen && t in s'.log.seen && HashToken(w.lib, t) == key;
      HashTokenInjective(w.lib, t, token);
    }
  }

  /** Its row stays on the disk, as it was, until the first snapshot after it went. */
  lemma {:induction false} OnDiskUntilSaved(w: World, s: State, es: seq<Event>, token: string)
    requires HashInjective(w.lib) && RowsNamed(w, s) && AllowedRun(w, s, es) && NoRestart(es) && Gone(w, s, token)
    ensures Gone(w, Run(w, s, es), token)
    ensures var key := HashToken(w.lib, token);
            var later := Run(w, s, es);
            && (key in later.disk <==> key in s.disk && !SavesIn(w, s, es))
            && (key in later.disk ==> later.disk[key] == s.disk[key])
    decreases |es|
  {
    hide RowsNamed, Step, Allowed, RowsSettle, HashInjective, HashToken, Saves, AfterOp;
    if es != [] {
      var s1 := Step(w, s, es[0]);
      StepSettles(w, s, es[0]);
      StepTable(w, s, es[0]);
      GoneStaysGone(w, s, s1, token);
      OnDiskUntilSaved(w, s1, es[1..], token);
    }
  }

  /**
   A token whose row has been removed validates after the next restart exactly if the disk had the
   row when it went, no snapshot has been completed since, and the row has not expired meanwhile.
   */
  lemma RemovalSurvivesRestart(w: World, s: State, es: seq<Event>, ring: Ring, token: string)
    requires WellConfigured(w) && Reachable(w, s) && Gone(w, s, token)
    requires AllowedRun(w, s, es) && NoRestart(es) && FreshRing(ring)
    ensures var key := HashToken(w.lib, token);
            var later := Run(w, s, es);
            Valid(w, Step(w, later, Restart(ring)), token)
            <==> key in s.disk && !SavesIn(w, s, es) && !Expired(s.disk[key].session, later.now)
  {
    ReachableNamed(w, s);
    OnDiskUntilSaved(w, s, es, token);
    hide Run, AllowedRun, Step, HashToken, Reachable, RowsNamed, SavesIn;
    RestartRevives(w, Run(w, s, es), Restart(ring), token);
  }

  // ---- revocation ----

  /** The step revokes the token, revokes its subject, or spends it in a refresh. */
  predicate Ends(w: World, s: State, e: Event, token: string) {
    match e
    case Revoke(t, credentials, _) => t == token && token != "" && AuthenticateClient(w.clients, credentials).Some?
    case RevokeSubject(subject, _) =>
      HashToken(w.lib, token) in s.table && s.table[HashToken(w.lib, token)].session.subject == subject
    case Advance(job, _, _) => job in s.jobs && s.jobs[job].Validated? && s.jobs[job].token == token
    case _ => false
  }

  lemma ActEnds(w: World, s: State, e: Event, token: string)
    requires RowsNamed(w, s) && HashInjective(w.lib) && Ends(w, s, e, token)
    ensures Gone(w, Act(w, s, e), token)
  {
    if e.RevokeSubject? {
      var key := HashToken(w.lib, token);
      assert RowNamed(w, s, key);
      HashTokenInjective(w.lib, token, s.log.origins[key].token);
    }
    assert e.Advance? ==> JobSeen(s, s.jobs[e.job]);
    hide AuthenticateClient, HashToken, InsertCode, TakeCode, CheckRefresh, Restarted, Issue, Redeem, RowsNamed, HashInjective;
  }

  lemma EndsAtOnce(w: World, s: State, e: Event, token: string)
    requires RowsNamed(w, s) && HashInjective(w.lib) && Ends(w, s, e, token)
    ensures Gone(w, Step(w, s, e), token)
  {
    StepIs(w, s, e);
    ActEnds(w, s, e, token);
    hide Act, Step, Saves, Ends, RowsNamed, HashInjective, HashToken;
  }

  /**
   Revocation is for good: after the step the row is gone, and the token validates at no later point
   of any run whose restarts do not load the row back.
   */
  lemma RevocationKills(w: World, s: State, e: Event, token: string, es: seq<Event>)
    requires WellConfigured(w) && Reachable(w, s) && Allowed(w, s, e) && Ends(w, s, e, token)
    requires AllowedRun(w, Step(w, s, e), es)
    ensures Gone(w, Step(w, s, e), token)
    ensures EverValid(w, Step(w, s, e), es, token) <==> EverReloads(w, Step(w, s, e), es, token)
  {
    ReachableNamed(w, s);
    EndsAtOnce(w, s, e, token);
    StepSettles(w, s, e);
    hide Step, RowsNamed, HashToken, Reachable, Ends, Allowed, RowsSettle;
    RunRevives(w, Step(w, s, e), es, token);
  }

  // ---- subject-wide revocation ----

  /**
   Revoking a subject drops exactly that subject's rows, refresh and stateful alike; every other
   opaque token and every JWT, the subject's own included, validates as before.
   */
  lemma SubjectRevocation(w: World, s: State, subject: string, saved: bool, token: string, now: Time)
    ensures var s' := Step(w, s, RevokeSubject(subject, saved));
            && |s'.table| + |OfSubject(s.table, subject)| == |s.table|
            && (forall k :: k in s'.table <==> k in s.table && s.table[k].session.subject != subject)
            && ValidateJwt(w.lib, Signatures(s'), s'.ring, token, now) == ValidateJwt(w.lib, Signatures(s), s.ring, token, now)
            && ValidateOpaque(w.lib, s'.table, token, now)
               == (var key := HashToken(w.lib, token);
                   if key in s.table && s.table[key].session.subject == subject then None
                   else ValidateOpaque(w.lib, s.table, token, now))
  {
    var e := RevokeSubject(subject, saved);
    StepIs(w, s, e);
    assert Act(w, s, e) == s.(table := Next(s.table, DeleteWhereSubject(subject))) by { hide Next; }
    hide Act, Step, Saves, HashToken, ValidateJwt;
    SubjectDeletion(s.table, subject, HashToken(w.lib, token), now);
  }

  // ---- token kinds ----

  lemma NamedDotFree(w: World, s: State)
    requires RowsNamed(w, s)
    ensures DotFreeKeys(w.lib, s.table)
  {
    hide HashToken, Text.Without;
    forall k | k in s.table ensures exists token :: HashToken(w.lib, token) == k && Text.Without(token, '.') {
      assert RowNamed(w, s, k);
    }
  }

  /**
   In every reachable state and for every string, the bridge accepts as stateful only a dot-free
   token, which the stateless store then refuses, and as stateless only one of three segments,
   which the table does not hold.
   */
  lemma KindsNeverMix(w: World, s: State, token: string)
    requires WellConfigured(w) && Reachable(w, s)
    ensures match Accepted(w, s, token)
            case Some((_, Stateful)) =>
              Text.Without(token, '.') && ValidateJwt(w.lib, Signatures(s), s.ring, token, s.now).None?
            case Some((_, Stateless)) => |Text.Split(token)| == 3 && HashToken(w.lib, token) !in s.table
            case _ => true
  {
    ReachableNamed(w, s);
    NamedDotFree(w, s);
    hide DotFreeKeys, Reachable;
    KindsDisjoint(w.lib, Signatures(s), s.table, s.ring, token, s.now);
  }
}
