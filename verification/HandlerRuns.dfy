/**
 A request handler that nobody interferes with, seen in the machine: each piece of its work is a
 short run. The server's methods are proved against these.
 */
module HandlerRuns {
  import opened Wrappers
  import opened Clock
  import opened Base64Url
  import opened Jwt
  import opened KeyRing
  import opened Sessions
  import opened Stores
  import opened Grants
  import opened Sidecar

  /** Some run the environment can produce goes from one state to the other. */
  ghost predicate Leads(w: World, s: State, s': State) {
    exists es :: AllowedRun(w, s, es) && Run(w, s, es) == s'
  }

  lemma LeadsNowhere(w: World, s: State)
    ensures Leads(w, s, s)
  {
    assert AllowedRun(w, s, []) && Run(w, s, []) == s;
  }

  lemma LeadsStep(w: World, s: State, e: Event)
    requires Allowed(w, s, e)
    ensures Leads(w, s, Step(w, s, e))
  {
    hide Step, Allowed;
    var s1 := Step(w, s, e);
    assert [e][1..] == [];
    assert AllowedRun(w, s1, []) && Run(w, s1, []) == s1;
    assert AllowedRun(w, s, [e]) && Run(w, s, [e]) == s1;
  }

  lemma LeadsOn(w: World, s: State, middle: State, s': State)
    requires Leads(w, s, middle) && Leads(w, middle, s')
    ensures Leads(w, s, s')
  {
    hide Run, AllowedRun;
    var a :| AllowedRun(w, s, a) && Run(w, s, a) == middle;
    var b :| AllowedRun(w, middle, b) && Run(w, middle, b) == s';
    RunSplit(w, s, a, b);
    assert AllowedRun(w, s, a + b) && Run(w, s, a + b) == s';
  }

  /** So what holds of every reachable state holds after a handler too. */
  lemma LeadsReachable(w: World, s: State, s': State)
    requires Reachable(w, s) && Leads(w, s, s')
    ensures Reachable(w, s')
  {
    hide Run, AllowedRun, Init;
    var s0, es :| Init(w, s0) && AllowedRun(w, s0, es) && s == Run(w, s0, es);
    var more :| AllowedRun(w, s, more) && Run(w, s, more) == s';
    RunSplit(w, s0, es, more);
    assert Init(w, s0) && AllowedRun(w, s0, es + more) && s' == Run(w, s0, es + more);
  }

  /** What a handler's own steps leave alone. */
  ghost predicate Goes(w: World, s: State, s': State) {
    && Leads(w, s, s') && s'.ring == s.ring && s'.codes == s.codes && s.now <= s'.now
    && s'.log.started == s.log.started && s'.log.used == s.log.used && s'.delivered == s.delivered
  }

  lemma GoesOn(w: World, s: State, middle: State, s': State)
    requires Goes(w, s, middle) && Goes(w, middle, s')
    ensures Goes(w, s, s')
  {
    hide Leads;
    LeadsOn(w, s, middle, s');
  }

  lemma GoesFrame(w: World, s: State, s': State)
    requires Goes(w, s, s')
    ensures Leads(w, s, s') && s'.ring == s.ring && s'.codes == s.codes && s.now <= s'.now
    ensures s'.delivered == s.delivered && s'.log.started == s.log.started && s'.log.used == s.log.used
  {
    hide Leads;
  }

  ghost predicate At(s: State, job: nat, g: Grant, resp: TokenSet, stage: Stage) {
    job in s.jobs && s.jobs[job] == Issuing(g, resp, stage)
  }

  // ---- single steps ----

  lemma Waits(w: World, s: State, to: Time) returns (s': State)
    requires s.now <= to && ClockOk(w, to)
    ensures Goes(w, s, s') && s' == s.(now := to)
  {
    hide ClockOk, Leads;
    s' := Step(w, s, Tick(to));
    LeadsStep(w, s, Tick(to));
  }

  lemma Quits(w: World, s: State, job: nat) returns (s': State)
    ensures Goes(w, s, s') && s' == Drop(s, job) && job !in s'.jobs && s'.table == s.table && s'.disk == s.disk && s'.notary == s.notary
  {
    hide Leads;
    s' := Step(w, s, Fail(job));
    LeadsStep(w, s, Fail(job));
  }

  /** A step that only moves the handler to its next stage. */
  lemma Moves(w: World, s: State, job: nat, g: Grant, resp: TokenSet, stage: Stage, random: seq<Byte>, next: Stage)
    returns (s': State)
    requires At(s, job, g, resp, stage) && !stage.Timed?
    requires Issue(w, s, job, g, resp, stage, random) == SetStage(s, job, g, resp, next)
    ensures Goes(w, s, s') && s' == SetStage(s, job, g, resp, next) && At(s', job, g, resp, next) && s'.disk == s.disk
  {
    hide Leads, Issue, Act, Step;
    var e := Advance(job, random, false);
    StepIs(w, s, e);
    AdvanceIssues(w, s, job, g, resp, stage, random, false);
    s' := Step(w, s, e);
    assert Allowed(w, s, e);
    LeadsStep(w, s, e);
  }

  lemma Signs(w: World, s: State, job: nat, g: Grant, resp: TokenSet, d: Draft, k: Key) returns (s': State)
    requires At(s, job, g, resp, Holding(d, k))
    ensures Goes(w, s, s') && s' == SignDraft(w, s, job, g, resp, d, k)
  {
    hide Leads, SignDraft, Act, Step;
    var e := Advance(job, [], false);
    StepIs(w, s, e);
    AdvanceIssues(w, s, job, g, resp, Holding(d, k), [], false);
    s' := Step(w, s, e);
    LeadsStep(w, s, e);
    assert s' == SignDraft(w, s, job, g, resp, d, k);
    SignFrame(w, s, job, g, resp, d, k);
  }

  lemma SignFrame(w: World, s: State, job: nat, g: Grant, resp: TokenSet, d: Draft, k: Key)
    ensures var s' := SignDraft(w, s, job, g, resp, d, k);
            && s'.ring == s.ring && s'.codes == s.codes && s'.now == s.now
            && s'.log.seen == s.log.seen && s'.log.started == s.log.started && s'.log.used == s.log.used
            && s'.delivered == s.delivered && s'.table == s.table && s'.disk == s.disk
            && s'.notary.Keys == s.notary.Keys + {(k.pair, MessageOf(w, k, d))}
            && At(s', job, g, if d.isId then resp.(idToken := Some(TokenOf(w, k, d))) else WithAccess(w, g, resp, TokenOf(w, k, d)),
                  if d.isId then AtRefresh else AtId)
  {
    hide MessageOf, TokenOf, WithAccess;
  }

  /** From a draft to the signature. */
  lemma DraftSigned(w: World, s: State, job: nat, g: Grant, resp: TokenSet, d: Draft) returns (s': State)
    requires At(s, job, g, resp, Drafted(d))
    ensures Goes(w, s, s') && s'.now == s.now && s'.table == s.table && s'.disk == s.disk && s'.log.seen == s.log.seen
    ensures var k := s.ring.active;
            && s'.notary.Keys == s.notary.Keys + {(k.pair, MessageOf(w, k, d))}
            && At(s', job, g, if d.isId then resp.(idToken := Some(TokenOf(w, k, d))) else WithAccess(w, g, resp, TokenOf(w, k, d)),
                  if d.isId then AtRefresh else AtId)
  {
    var k := s.ring.active;
    var s1 := Moves(w, s, job, g, resp, Drafted(d), [], Holding(d, k));
    SignFrame(w, s1, job, g, resp, d, k);
    hide SignDraft, Goes, MessageOf, TokenOf, WithAccess, At;
    s' := Signs(w, s1, job, g, resp, d, k);
    GoesOn(w, s, s1, s');
  }

  // ---- the pieces of issueTokenSet ----

  lemma AccessJwt(w: World, s: State, job: nat, g: Grant, resp: TokenSet, random: seq<Byte>) returns (s': State)
    requires At(s, job, g, resp, AtAccess) && ModeFor(w.cfg, g.client) == Stateless
    ensures Goes(w, s, s') && s'.now == s.now && s'.table == s.table && s'.disk == s.disk && s'.log.seen == s.log.seen
    ensures var k, d := s.ring.active, AccessDraft(w, g, s.now, random);
            && s'.notary.Keys == s.notary.Keys + {(k.pair, MessageOf(w, k, d))}
            && At(s', job, g, WithAccess(w, g, resp, TokenOf(w, k, d)), AtId)
  {
    var d := AccessDraft(w, g, s.now, random);
    assert !d.isId;
    var s1 := Moves(w, s, job, g, resp, AtAccess, random, Drafted(d));
    assert s1.now == s.now && s1.table == s.table && s1.disk == s.disk && s1.log == s.log && s1.ring == s.ring && s1.notary == s.notary;
    hide Goes, MessageOf, TokenOf, WithAccess, At, AccessDraft, ModeFor, SetStage;
    s' := DraftSigned(w, s1, job, g, resp, d);
    GoesOn(w, s, s1, s');
  }

  lemma StoreSaves(w: World, s: State, job: nat, g: Grant, resp: TokenSet, stage: Stage, random: seq<Byte>, saved: bool)
    requires At(s, job, g, resp, stage) && stage.Timed?
    ensures Saves(w, s, Advance(job, random, saved)) <==> saved
  {
    hide Encode, HashToken, OpaqueSession;
  }

  /** The clock read, and the row put in the table at a possibly later instant; its snapshot is renamed into place or not. */
  lemma RowStored(w: World, s: State, job: nat, g: Grant, resp: TokenSet, at: Time, ttl: Time, isRefresh: bool, put: Time,
                  random: seq<Byte>, renamed: bool) returns (s': State)
    requires At(s, job, g, resp, Timed(at, ttl, isRefresh)) && Encode(random) !in s.log.seen
    requires s.now <= put && ClockOk(w, put)
    ensures Goes(w, s, s') && s'.now == put && s'.notary == s.notary && s'.log.seen == s.log.seen + {Encode(random)}
    ensures s'.table == Next(s.table, Op.Put(HashToken(w.lib, Encode(random)),
                                             OpaqueSession(w.lib, GrantSession(g), Encode(random), at, ttl), put))
    ensures s'.disk == if renamed then s'.table else s.disk
    ensures At(s', job, g, if isRefresh then resp.(refresh := Some(Encode(random))) else WithAccess(w, g, resp, Encode(random)),
               if isRefresh then Complete else AtId)
  {
    var s1 := Waits(w, s, put);
    var e := Advance(job, random, renamed);
    StepIs(w, s1, e);
    AdvanceIssues(w, s1, job, g, resp, Timed(at, ttl, isRefresh), random, renamed);
    StoreSaves(w, s1, job, g, resp, Timed(at, ttl, isRefresh), random, renamed);
    hide Leads, Encode, HashToken, OpaqueSession, WithAccess, ClockOk, Act, Step, Saves;
    s' := Step(w, s1, e);
    LeadsStep(w, s1, e);
    LeadsOn(w, s, s1, s');
  }

  lemma AccessRow(w: World, s: State, job: nat, g: Grant, resp: TokenSet, put: Time, random: seq<Byte>, renamed: bool) returns (s': State)
    requires At(s, job, g, resp, AtAccess) && ModeFor(w.cfg, g.client) == Stateful && Encode(random) !in s.log.seen
    requires s.now <= put && ClockOk(w, put)
    ensures Goes(w, s, s') && s'.now == put && s'.disk == (if renamed then s'.table else s.disk) && s'.notary == s.notary && s'.log.seen == s.log.seen + {Encode(random)}
    ensures s'.table == Next(s.table, Op.Put(HashToken(w.lib, Encode(random)),
                                             OpaqueSession(w.lib, GrantSession(g), Encode(random), s.now, w.cfg.statefulTTL), put))
    ensures At(s', job, g, WithAccess(w, g, resp, Encode(random)), AtId)
  {
    var s1 := Moves(w, s, job, g, resp, AtAccess, random, Timed(s.now, w.cfg.statefulTTL, false));
    assert s1.now == s.now && s1.table == s.table && s1.disk == s.disk && s1.log == s.log && s1.notary == s.notary;
    hide Goes, At, Encode, HashToken, OpaqueSession, WithAccess, ClockOk, ModeFor, SetStage, Next;
    s' := RowStored(w, s1, job, g, resp, s.now, w.cfg.statefulTTL, false, put, random, renamed);
    GoesOn(w, s, s1, s');
  }

  /**
   The access token in either mode, with the random bytes drawn, if any, whether the row's snapshot was
   reported kept, and whether it was renamed into place.
   */
  lemma AccessIssued(w: World, s: State, job: nat, g: Grant, resp: TokenSet, random: Option<seq<Byte>>, put: Time, saved: bool, renamed: bool)
    returns (s': State)
    requires At(s, job, g, resp, AtAccess) && s.now <= put && ClockOk(w, put)
    requires random.Some? ==> Encode(random.value) !in s.log.seen
    requires renamed ==> ModeFor(w.cfg, g.client) == Stateful && random.Some?
    ensures s'.disk == if renamed then s'.table else s.disk
    ensures Goes(w, s, s') && s'.now <= put && s'.log.seen <= s.log.seen + (if random.Some? then {Encode(random.value)} else {})
    ensures ModeFor(w.cfg, g.client) == Stateless && random.Some? ==>
      var k, d := s.ring.active, AccessDraft(w, g, s.now, random.value);
      && s'.table == s.table && s'.notary.Keys == s.notary.Keys + {(k.pair, MessageOf(w, k, d))}
      && At(s', job, g, WithAccess(w, g, resp, TokenOf(w, k, d)), AtId)
    ensures ModeFor(w.cfg, g.client) == Stateful && random.Some? ==>
      && s'.notary == s.notary
      && s'.table == Next(s.table, Op.Put(HashToken(w.lib, Encode(random.value)),
                                          OpaqueSession(w.lib, GrantSession(g), Encode(random.value), s.now, w.cfg.statefulTTL), put))
      && (if saved then At(s', job, g, WithAccess(w, g, resp, Encode(random.value)), AtId) else job !in s'.jobs)
    ensures ModeFor(w.cfg, g.client).Unknown? || random.None? ==>
      s'.table == s.table && s'.notary == s.notary && job !in s'.jobs
  {
    hide Leads, Encode, HashToken, OpaqueSession, WithAccess, ClockOk, ModeFor, MessageOf, TokenOf, AccessDraft, Next, At, Drop;
    if ModeFor(w.cfg, g.client) == Stateless && random.Some? {
      s' := AccessJwt(w, s, job, g, resp, random.value);
    } else if ModeFor(w.cfg, g.client) == Stateful && random.Some? {
      s' := AccessRow(w, s, job, g, resp, put, random.value, renamed);
      if !saved {
        var stored := s';
        s' := Quits(w, stored, job);
        assert s'.now == stored.now && s'.log == stored.log by { DropFrame(stored, job); }
        GoesOn(w, s, stored, s');
      }
    } else {
      s' := Quits(w, s, job);
      assert s'.now == s.now && s'.log == s.log by { DropFrame(s, job); }
    }
  }

  /** The same, as what the server computes. */
  lemma AccessSettled(w: World, s: State, job: nat, g: Grant, resp: TokenSet, random: Option<seq<Byte>>, put: Time, saved: bool, renamed: bool)
    returns (s': State)
    requires At(s, job, g, resp, AtAccess) && s.now <= put && ClockOk(w, put)
    requires random.Some? ==> Encode(random.value) !in s.log.seen
    requires renamed ==> ModeFor(w.cfg, g.client) == Stateful && random.Some?
    ensures Goes(w, s, s') && s'.now <= put && s'.log.seen <= s.log.seen + (if random.Some? then {Encode(random.value)} else {})
    ensures s'.table == AccessRows(w, s.table, g, random, s.now, put)
    ensures s'.disk == if renamed then s'.table else s.disk
    ensures s'.notary.Keys == s.notary.Keys + if ModeFor(w.cfg, g.client) == Stateless && random.Some?
                                              then {(s.ring.active.pair, MessageOf(w, s.ring.active, AccessDraft(w, g, s.now, random.value)))}
                                              else {}
    ensures var token := AccessToken(w, s.ring.active, g, random, s.now, saved);
            if token.Some? then At(s', job, g, WithAccess(w, g, resp, token.value), AtId) else job !in s'.jobs
  {
    hide Goes, Encode, HashToken, OpaqueSession, WithAccess, ClockOk, ModeFor, MessageOf, TokenOf, AccessDraft, Next;
    s' := AccessIssued(w, s, job, g, resp, random, put, saved, renamed);
  }

  /** The access token and the message under its signature, spelled out. */
  lemma AccessSpelled(w: World, g: Grant, k: Key, now: Time, random: seq<Byte>)
    ensures var d := AccessDraft(w, g, now, random);
            var c := SessionClaims(w.cfg.issuer, GrantSession(g), Encode(random), now, w.cfg.statelessTTL);
            && TokenOf(w, k, d) == SignToken(w.lib, k.alg, k.Kid(), k.pair, c)
            && MessageOf(w, k, d) == SigningInput(w.lib, Header(AlgName(k.alg), "JWT", k.Kid()), c)
  {
  }

  /** The access token a handler ends up with, if any. */
  function AccessToken(w: World, k: Key, g: Grant, random: Option<seq<Byte>>, now: Time, saved: bool): Option<string> {
    if random.None? then None
    else
      match ModeFor(w.cfg, g.client)
      case Stateless => Some(TokenOf(w, k, AccessDraft(w, g, now, random.value)))
      case Stateful => if saved then Some(Encode(random.value)) else None
      case Unknown(_) => None
  }

  /** The refresh token it ends up with, if any. */
  function RefreshToken(g: Grant, random: Option<seq<Byte>>, saved: bool): Option<string> {
    if HasScope(g.scope, "offline_access") && random.Some? && saved then Some(Encode(random.value)) else None
  }

  /** The table with the row of a stateful access token. */
  function AccessRows(w: World, t: Table, g: Grant, random: Option<seq<Byte>>, at: Time, put: Time): Table {
    if ModeFor(w.cfg, g.client) == Stateful && random.Some? then WithRow(w, t, g, random.value, at, w.cfg.statefulTTL, put) else t
  }

  /** The table with the row of a refresh token. */
  function RefreshRows(w: World, t: Table, g: Grant, random: Option<seq<Byte>>, at: Time, put: Time): Table {
    if HasScope(g.scope, "offline_access") && random.Some? then WithRow(w, t, g, random.value, at, w.cfg.refreshTTL, put) else t
  }

  function WithRow(w: World, t: Table, g: Grant, random: seq<Byte>, at: Time, ttl: Time, put: Time): Table {
    Next(t, Op.Put(HashToken(w.lib, Encode(random)), OpaqueSession(w.lib, GrantSession(g), Encode(random), at, ttl), put))
  }

  lemma DropFrame(s: State, job: nat)
    ensures Drop(s, job).now == s.now && Drop(s, job).log == s.log
  {
  }

  lemma IdJwt(w: World, s: State, job: nat, g: Grant, resp: TokenSet) returns (s': State)
    requires At(s, job, g, resp, AtId) && HasScope(g.scope, "openid")
    ensures Goes(w, s, s') && s'.now == s.now && s'.table == s.table && s'.disk == s.disk && s'.log.seen == s.log.seen
    ensures var k, d := s.ring.active, IdDraft(w, g, s.now);
            && s'.notary.Keys == s.notary.Keys + {(k.pair, MessageOf(w, k, d))}
            && At(s', job, g, resp.(idToken := Some(TokenOf(w, k, d))), AtRefresh)
  {
    var d := IdDraft(w, g, s.now);
    assert d.isId;
    hide HasScope;
    var s1 := Moves(w, s, job, g, resp, AtId, [], Drafted(d));
    assert s1.now == s.now && s1.table == s.table && s1.disk == s.disk && s1.log == s.log && s1.ring == s.ring && s1.notary == s.notary;
    hide Goes, MessageOf, TokenOf, At, IdDraft, SetStage;
    s' := DraftSigned(w, s1, job, g, resp, d);
    GoesOn(w, s, s1, s');
  }

  lemma RefreshRow(w: World, s: State, job: nat, g: Grant, resp: TokenSet, put: Time, random: seq<Byte>, renamed: bool) returns (s': State)
    requires At(s, job, g, resp, AtRefresh) && HasScope(g.scope, "offline_access") && Encode(random) !in s.log.seen
    requires s.now <= put && ClockOk(w, put)
    ensures Goes(w, s, s') && s'.now == put && s'.disk == (if renamed then s'.table else s.disk) && s'.notary == s.notary
    ensures s'.table == Next(s.table, Op.Put(HashToken(w.lib, Encode(random)),
                                             OpaqueSession(w.lib, GrantSession(g), Encode(random), s.now, w.cfg.refreshTTL), put))
    ensures At(s', job, g, resp.(refresh := Some(Encode(random))), Complete)
  {
    hide HasScope;
    var s1 := Moves(w, s, job, g, resp, AtRefresh, random, Timed(s.now, w.cfg.refreshTTL, true));
    assert s1.now == s.now && s1.table == s.table && s1.disk == s.disk && s1.log == s.log && s1.notary == s.notary;
    hide Goes, At, Encode, HashToken, OpaqueSession, ClockOk, SetStage, Next;
    s' := RowStored(w, s1, job, g, resp, s.now, w.cfg.refreshTTL, true, put, random, renamed);
    GoesOn(w, s, s1, s');
  }

  /** A scope that does not ask for the token: straight on to the next stage. */
  lemma Skips(w: World, s: State, job: nat, g: Grant, resp: TokenSet, stage: Stage) returns (s': State)
    requires At(s, job, g, resp, stage)
    requires (stage.AtId? && !HasScope(g.scope, "openid")) || (stage.AtRefresh? && !HasScope(g.scope, "offline_access"))
    ensures Goes(w, s, s') && s'.now == s.now && s'.table == s.table && s'.disk == s.disk && s'.notary == s.notary && s'.log == s.log
    ensures At(s', job, g, resp, if stage.AtId? then AtRefresh else Complete)
  {
    hide HasScope;
    s' := Moves(w, s, job, g, resp, stage, [], if stage.AtId? then AtRefresh else Complete);
  }

  /** The ID token, if the scope asks for one. */
  lemma IdIssued(w: World, s: State, job: nat, g: Grant, resp: TokenSet, at: Time) returns (s': State)
    requires At(s, job, g, resp, AtId) && resp.idToken == None && s.now <= at && ClockOk(w, at)
    ensures Goes(w, s, s') && s'.now <= at && s'.table == s.table && s'.disk == s.disk && s'.log.seen == s.log.seen
    ensures HasScope(g.scope, "openid") ==>
      var k, d := s.ring.active, IdDraft(w, g, at);
      && s'.notary.Keys == s.notary.Keys + {(k.pair, MessageOf(w, k, d))}
      && At(s', job, g, resp.(idToken := Some(TokenOf(w, k, d))), AtRefresh)
    ensures !HasScope(g.scope, "openid") ==> s'.notary == s.notary && At(s', job, g, resp, AtRefresh)
  {
    hide Leads, ClockOk, MessageOf, TokenOf, IdDraft, HasScope;
    if HasScope(g.scope, "openid") {
      var s1 := Waits(w, s, at);
      s' := IdJwt(w, s1, job, g, resp);
      GoesOn(w, s, s1, s');
      assert IdDraft(w, g, s1.now) == IdDraft(w, g, at);
    } else {
      s' := Skips(w, s, job, g, resp, AtId);
    }
  }

  /** The refresh token, if the scope asks for one. */
  lemma RefreshIssued(w: World, s: State, job: nat, g: Grant, resp: TokenSet, at: Time, random: Option<seq<Byte>>, put: Time, saved: bool, renamed: bool)
    returns (s': State)
    requires At(s, job, g, resp, AtRefresh) && s.now <= at <= put && ClockOk(w, at) && ClockOk(w, put)
    requires random.Some? ==> Encode(random.value) !in s.log.seen
    requires renamed ==> HasScope(g.scope, "offline_access") && random.Some?
    ensures Goes(w, s, s') && s'.disk == (if renamed then s'.table else s.disk) && s'.notary == s.notary
    ensures !HasScope(g.scope, "offline_access") ==> s'.table == s.table && At(s', job, g, resp, Complete)
    ensures HasScope(g.scope, "offline_access") && random.None? ==> s'.table == s.table && job !in s'.jobs
    ensures HasScope(g.scope, "offline_access") && random.Some? ==>
      && s'.table == Next(s.table, Op.Put(HashToken(w.lib, Encode(random.value)),
                                          OpaqueSession(w.lib, GrantSession(g), Encode(random.value), at, w.cfg.refreshTTL), put))
      && (if saved then At(s', job, g, resp.(refresh := Some(Encode(random.value))), Complete) else job !in s'.jobs)
  {
    hide Leads, Encode, HashToken, OpaqueSession, ClockOk, HasScope, Next, Drop;
    if !HasScope(g.scope, "offline_access") {
      s' := Skips(w, s, job, g, resp, AtRefresh);
    } else if random.None? {
      s' := Quits(w, s, job);
    } else {
      var s1 := Waits(w, s, at);
      s' := RefreshRow(w, s1, job, g, resp, put, random.value, renamed);
      GoesOn(w, s, s1, s');
      if !saved {
        var stored := s';
        s' := Quits(w, stored, job);
        GoesOn(w, s, stored, s');
      }
    }
  }

  /** The same, as what the server computes. */
  lemma RefreshSettled(w: World, s: State, job: nat, g: Grant, resp: TokenSet, at: Time, random: Option<seq<Byte>>, put: Time, saved: bool,
                       renamed: bool) returns (s': State)
    requires At(s, job, g, resp, AtRefresh) && s.now <= at <= put && ClockOk(w, at) && ClockOk(w, put) && resp.refresh == None
    requires random.Some? ==> Encode(random.value) !in s.log.seen
    requires renamed ==> HasScope(g.scope, "offline_access") && random.Some?
    ensures Goes(w, s, s') && s'.notary == s.notary
    ensures s'.table == RefreshRows(w, s.table, g, random, at, put)
    ensures s'.disk == if renamed then s'.table else s.disk
    ensures var token := RefreshToken(g, random, saved);
            if HasScope(g.scope, "offline_access") && token.None? then job !in s'.jobs
            else At(s', job, g, resp.(refresh := token), Complete)
  {
    hide Goes, Encode, HashToken, OpaqueSession, ClockOk, HasScope, Next;
    s' := RefreshIssued(w, s, job, g, resp, at, random, put, saved, renamed);
  }

  lemma Responds(w: World, s: State, job: nat, g: Grant, resp: TokenSet) returns (s': State)
    requires At(s, job, g, resp, Complete)
    ensures Leads(w, s, s') && s' == Respond(s, job, g, resp)
    ensures job !in s'.jobs && s'.table == s.table && s'.disk == s.disk && s'.notary == s.notary && s'.ring == s.ring && s'.codes == s.codes
    ensures s'.log == s.log && s'.delivered == s.delivered[job := Response(g, resp)]
  {
    hide Leads, Act, Step;
    var e := Advance(job, [], false);
    StepIs(w, s, e);
    AdvanceIssues(w, s, job, g, resp, Complete, [], false);
    s' := Step(w, s, e);
    LeadsStep(w, s, e);
  }

  // ---- logins ----

  lemma LogsIn(w: World, s: State, e: Event, client: Client, subject: string)
    requires e.LogIn? && ValidateAuthRequest(w.clients, e.query) == Ok(client) && w.authenticate(e.username, e.password) == Some(subject)
    ensures var s' := Step(w, s, e);
            && s'.codes == UnexpiredCodes(s.codes, s.now)[Encode(e.random) :=
                 NewAuthCode(e.query, client, subject, e.authClock, e.expiryClock + w.cfg.authCodeTTL)]
            && s'.table == s.table && s'.disk == s.disk && s'.ring == s.ring && s'.notary == s.notary
  {
    hide Insert, ValidateAuthRequest, NewAuthCode, Encode, UnexpiredCodes;
    SuccessfulLogin(w, s, UnexpiredCodes(s.codes, s.now), e, client, subject);
  }

  lemma LoginRefused(w: World, s: State, e: Event)
    requires e.LogIn? && (ValidateAuthRequest(w.clients, e.query).Err? || w.authenticate(e.username, e.password).None?)
    ensures Step(w, s, e) == s
  {
    hide Insert, ValidateAuthRequest, UnexpiredCodes;
    FailedLogin(w, s, UnexpiredCodes(s.codes, s.now), e);
  }

  // ---- the other steps of the handlers ----

  lemma TakesCode(w: World, s: State, job: nat, x: Exchange, client: Client) returns (s': State)
    requires x.code != "" && x.verifier != "" && AuthenticateClient(w.clients, x.credentials) == Some(client)
    requires job !in s.log.used
    ensures Leads(w, s, s') && TookCode(s, s', job, x, client)
  {
    var e := BeginExchange(job, x);
    hide AuthenticateClient, Take, InsertCode, CheckRefresh, AdvanceJob, Background, Restarted, Leads, TookCode;
    s' := Step(w, s, e);
    LeadsStep(w, s, e);
    TakeEffect(s, job, x, client);
  }

  lemma ChecksCode(w: World, s: State, job: nat, x: Exchange, client: Client, ac: AuthCode) returns (s': State)
    requires job in s.jobs && s.jobs[job] == Looked(x, client, ac)
    ensures Leads(w, s, s') && Redeemed(w, s, s', job, x, client, ac)
  {
    var e := Advance(job, [], false);
    StepIs(w, s, e);
    Advances(w, s, job, [], false);
    hide Redeem, Leads, Redeemed, Issue, RevokeForRefresh, Act, Step;
    s' := Step(w, s, e);
    LeadsStep(w, s, e);
    RedeemEffect(w, s, job, x, client, ac);
  }

  /** The outcome of presenting a refresh token: a handler that goes on with its session, or nothing but the presentation. */
  ghost predicate Presented(w: World, s: State, s': State, job: nat, token: string, client: Client) {
    var sess := ValidateOpaque(w.lib, s.table, token, s.now);
    && SameTokens(s, s') && s'.now == s.now && s'.ring == s.ring && s'.codes == s.codes
    && s'.log.started == s.log.started && s'.log.seen == s.log.seen + {token}
    && (if sess.Some? && sess.value.clientID == client.id
        then job in s'.jobs && s'.jobs[job] == Validated(client, token, sess.value, RootOf(s, HashToken(w.lib, token)))
        else s'.jobs == s.jobs)
  }

  lemma PresentsDead(w: World, s: State, job: nat, token: string, client: Client)
    requires var sess := ValidateOpaque(w.lib, s.table, token, s.now); sess.None? || sess.value.clientID != client.id
    ensures Presented(w, s, s.(log := s.log.(seen := s.log.seen + {token})), job, token, client)
  {
    hide ValidateOpaque, HashToken, RootOf;
  }

  lemma PresentsLive(w: World, s: State, job: nat, token: string, client: Client, sess: Session, p: Presentation)
    requires ValidateOpaque(w.lib, s.table, token, s.now) == Some(sess) && sess.clientID == client.id
    ensures Presented(w, s,
              s.(jobs := s.jobs[job := Validated(client, token, sess, RootOf(s, HashToken(w.lib, token)))],
                 log := s.log.(seen := s.log.seen + {token}).(used := s.log.used + {job}, presented := s.log.presented[job := p])),
              job, token, client)
  {
    hide ValidateOpaque, HashToken, RootOf;
  }

  lemma RootKept(s: State, to: Time, key: string)
    ensures RootOf(s.(now := to), key) == RootOf(s, key)
  {
  }

  lemma EnterPresents(w: World, s: State, job: nat, token: string, credentials: Credentials, client: Client)
    ensures Presented(w, s, EnterRefresh(w, s, job, token, credentials, client), job, token, client)
  {
    var sess := ValidateOpaque(w.lib, s.table, token, s.now);
    hide ValidateOpaque, HashToken, RootOf, Presented;
    if sess.None? || sess.value.clientID != client.id {
      PresentsDead(w, s, job, token, client);
    } else {
      PresentsLive(w, s, job, token, client, sess.value, Presentation(token, credentials, client, sess.value, s.now));
    }
  }

  lemma PresentsRefresh(w: World, s: State, job: nat, token: string, credentials: Credentials, client: Client) returns (s': State)
    requires token != "" && AuthenticateClient(w.clients, credentials) == Some(client) && job !in s.log.used
    ensures Leads(w, s, s') && Presented(w, s, s', job, token, client)
  {
    var e := BeginRefresh(job, token, credentials);
    hide AuthenticateClient, InsertCode, TakeCode, AdvanceJob, Background, Restarted, Leads, EnterRefresh, Presented;
    s' := Step(w, s, e);
    LeadsStep(w, s, e);
    EnterPresents(w, s, job, token, credentials, client);
  }

  /** What a spent refresh token leaves, whatever becomes of the snapshot. */
  lemma Spends(w: World, s: State, job: nat, client: Client, token: string, sess: Session, root: string, saved: bool)
    requires job in s.jobs && s.jobs[job] == Validated(client, token, sess, root)
    ensures var e := Advance(job, [], saved);
            && Allowed(w, s, e) && (Saves(w, s, e) <==> saved && HashToken(w.lib, token) in s.table)
            && Act(w, s, e) == RevokeForRefresh(w, s, job, client, token, sess, root)
  {
    hide HashToken, RevokeForRefresh;
  }

  /** The presented token revoked; the snapshot that is due if its row was there is renamed into place or not. */
  lemma SpendSettled(w: World, s: State, job: nat, client: Client, token: string, sess: Session, root: string, renamed: bool)
    returns (s': State)
    requires job in s.jobs && s.jobs[job] == Validated(client, token, sess, root)
    requires renamed ==> HashToken(w.lib, token) in s.table
    ensures Leads(w, s, s') && s'.now == s.now && s'.ring == s.ring && s'.codes == s.codes && s'.notary == s.notary
    ensures s'.delivered == s.delivered && s'.log == s.log
    ensures job in s'.jobs && s'.jobs[job] == Begin(Grant(client, sess.subject, sess.scope, "", sess.issuedAt, root))
    ensures s'.table == s.table - {HashToken(w.lib, token)} && s'.disk == if renamed then s'.table else s.disk
  {
    hide Leads, HashToken, Begin, Step, Act, Allowed, Saves;
    var e := Advance(job, [], renamed);
    StepIs(w, s, e);
    Spends(w, s, job, client, token, sess, root, renamed);
    s' := Step(w, s, e);
    LeadsStep(w, s, e);
    RevokeRefreshEffect(w, s, job, client, token, sess, root);
  }

  /** Both deletions of a revocation, the second of which finds nothing; the snapshot of the first is renamed or not. */
  lemma RevokeSettled(w: World, s: State, token: string, credentials: Credentials, renamed: bool) returns (s': State)
    requires token != "" && AuthenticateClient(w.clients, credentials).Some? && (renamed ==> HashToken(w.lib, token) in s.table)
    ensures Leads(w, s, s') && s'.table == s.table - {HashToken(w.lib, token)}
    ensures s'.disk == if renamed then s'.table else s.disk
    ensures s'.codes == s.codes && s'.ring == s.ring && s'.notary == s.notary
  {
    hide Leads, HashToken, AuthenticateClient;
    var s1 := Deletes(w, s, token, credentials, renamed);
    s' := Deletes(w, s1, token, credentials, false);
    LeadsOn(w, s, s1, s');
  }

  /** One of the two deletions of a revocation. */
  lemma Deletes(w: World, s: State, token: string, credentials: Credentials, renamed: bool) returns (s': State)
    requires token != "" && AuthenticateClient(w.clients, credentials).Some? && (renamed ==> HashToken(w.lib, token) in s.table)
    ensures Leads(w, s, s') && s'.table == s.table - {HashToken(w.lib, token)}
    ensures s'.disk == if renamed then s'.table else s.disk
    ensures s'.now == s.now && s'.codes == s.codes && s'.ring == s.ring && s'.notary == s.notary && s'.log.seen == s.log.seen + {token}
  {
    var e := Revoke(token, credentials, renamed);
    hide AuthenticateClient, HashToken, Leads, Step, Act, Saves;
    StepIs(w, s, e);
    RevokeActs(w, s, token, credentials, renamed);
    s' := Step(w, s, e);
    LeadsStep(w, s, e);
  }

  lemma RevokeActs(w: World, s: State, token: string, credentials: Credentials, saved: bool)
    requires token != "" && AuthenticateClient(w.clients, credentials).Some?
    ensures var e := Revoke(token, credentials, saved);
            && Act(w, s, e) == RevokeToken(w, s, token, credentials)
            && (Saves(w, s, e) <==> saved && HashToken(w.lib, token) in s.table)
  {
    hide AuthenticateClient, HashToken, RevokeToken;
  }
}
