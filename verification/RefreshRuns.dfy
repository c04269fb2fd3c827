/**
 The row bounds of `RefreshChain` are exact: handlers of one refresh token that do overlap leave two
 rows of a stateless-mode login, and the rows of a stateful login do grow by one for each refresh.
 */
module RefreshRuns {
  import opened Wrappers
  import opened Clock
  import opened Base64Url
  import opened Primitives
  import opened KeyRing
  import opened Sessions
  import opened Stores
  import opened Grants
  import opened Sidecar
  import opened SingleUse
  import opened Provenance
  import opened OpaqueTokens
  import opened RefreshChain

  // ---- a handler left alone ----

  /** How many steps a handler that stores all it can is away from having stored its refresh row. */
  function StepsLeft(st: Stage): nat {
    match st
    case AtAccess => 8
    case Drafted(d) => if d.isId then 4 else 7
    case Holding(d, _) => if d.isId then 3 else 6
    case AtId => 5
    case AtRefresh => 2
    case Timed(_, _, isRefresh) => if isRefresh then 1 else 6
    case Complete => 0
  }

  /** The grant of a client in a known mode that has asked for a refresh token. */
  predicate StoresAll(w: World, g: Grant) {
    !ModeFor(w.cfg, g.client).Unknown? && HasScope(g.scope, "offline_access")
  }

  function Tokens(draws: seq<seq<Byte>>): set<string> {
    set d | d in draws :: Encode(d)
  }

  function RowKeys(w: World, draws: seq<seq<Byte>>): set<string> {
    set d | d in draws :: HashToken(w.lib, Encode(d))
  }

  predicate FreshDraws(seen: set<string>, draws: seq<seq<Byte>>) {
    && (forall i :: 0 <= i < |draws| ==> Encode(draws[i]) !in seen)
    && (forall i, j :: 0 <= i < j < |draws| ==> Encode(draws[i]) != Encode(draws[j]))
  }

  /** The handler has stored a row for each of these draws; nothing else about the table, other handlers or the clock has changed. */
  ghost predicate HasStored(w: World, s: State, s': State, job: nat, root: string, draws: seq<seq<Byte>>) {
    && s'.now == s.now && OtherJobs(s, s', job) && job in s'.jobs && s'.jobs[job].Issuing?
    && s'.log.used == s.log.used && s'.log.seen == s.log.seen + Tokens(draws)
    && s'.table.Keys == s.table.Keys + RowKeys(w, draws)
    && (forall k :: RootOf(s', k) == if k in RowKeys(w, draws) then root else RootOf(s, k))
  }

  lemma StoredOn(w: World, s: State, middle: State, s': State, job: nat, root: string, a: seq<seq<Byte>>, b: seq<seq<Byte>>)
    requires HasStored(w, s, middle, job, root, a) && HasStored(w, middle, s', job, root, b)
    ensures HasStored(w, s, s', job, root, a + b)
  {
    hide RootOf, Encode, HashToken;
    assert Tokens(a + b) == Tokens(a) + Tokens(b) && RowKeys(w, a + b) == RowKeys(w, a) + RowKeys(w, b);
  }

  /** The refresh row is stored last, with the full lifetime. */
  ghost predicate LastRow(w: World, s: State, g: Grant, draw: seq<Byte>) {
    var key := HashToken(w.lib, Encode(draw));
    && key in s.table && s.table[key].session.clientID == g.client.id && s.table[key].session.scope == g.scope
    && s.table[key].session.expiresAt == s.now + w.cfg.refreshTTL
  }

  /** A refresh row being stored has just read the clock. */
  predicate OnTime(w: World, s: State, stage: Stage) {
    stage.Timed? && stage.isRefresh ==> stage.at == s.now && stage.ttl == w.cfg.refreshTTL
  }

  /** The handler has moved on, and owes a row less if it has just stored one. */
  ghost predicate MovedOn(w: World, s': State, job: nat, g: Grant, stage: Stage) {
    && job in s'.jobs && s'.jobs[job].Issuing? && s'.jobs[job].g == g
    && StepsLeft(s'.jobs[job].stage) < StepsLeft(stage) && OnTime(w, s', s'.jobs[job].stage)
    && StageOwes(w, g, s'.jobs[job].stage) + (if stage.Timed? then 1 else 0) == StageOwes(w, g, stage)
  }

  lemma AccessMoves(w: World, s: State, job: nat, g: Grant, resp: TokenSet, random: seq<Byte>)
    requires !ModeFor(w.cfg, g.client).Unknown?
    ensures MovedOn(w, Issue(w, s, job, g, resp, AtAccess, random), job, g, AtAccess)
  {
    assert !AccessDraft(w, g, s.now, random).isId by { hide SessionClaims; }
    hide SignDraft, StoreRow, AccessDraft, IdDraft, Encode, HasScope, ModeFor, Respond, Drop;
  }

  lemma StageMoves(w: World, s: State, job: nat, g: Grant, resp: TokenSet, stage: Stage, random: seq<Byte>)
    requires StoresAll(w, g) && (stage.AtId? || stage.AtRefresh? || stage.Drafted?)
    ensures MovedOn(w, Issue(w, s, job, g, resp, stage, random), job, g, stage)
  {
    hide SignDraft, StoreRow, AccessDraft, IdClaims, HasScope, ModeFor, PerHandler, Respond;
  }

  lemma KnownMode(w: World, g: Grant)
    requires StoresAll(w, g)
    ensures !ModeFor(w.cfg, g.client).Unknown?
  {
    hide ModeFor, HasScope;
  }

  lemma SignMoves(w: World, s: State, job: nat, g: Grant, resp: TokenSet, d: Draft, k: Key)
    ensures MovedOn(w, SignDraft(w, s, job, g, resp, d, k), job, g, Holding(d, k))
  {
    hide WithAccess, TokenOf, MessageOf, PerHandler;
  }

  lemma StoreMoves(w: World, s: State, job: nat, g: Grant, resp: TokenSet, at: Time, ttl: Time, isRefresh: bool, token: string)
    ensures MovedOn(w, StoreRow(w, s, job, g, resp, at, ttl, isRefresh, token), job, g, Timed(at, ttl, isRefresh))
  {
    hide WithAccess, HashToken, OpaqueSession, PerHandler;
  }

  lemma Progress(w: World, s: State, job: nat, g: Grant, resp: TokenSet, stage: Stage, random: seq<Byte>)
    requires StoresAll(w, g) && !stage.Complete?
    ensures MovedOn(w, Issue(w, s, job, g, resp, stage, random), job, g, stage)
  {
    hide StoresAll, MovedOn, SignDraft, StoreRow, AccessDraft, IdDraft, Encode, HasScope, ModeFor, SetStage;
    match stage
    case Holding(d, k) => SignMoves(w, s, job, g, resp, d, k);
    case Timed(at, ttl, isRefresh) => StoreMoves(w, s, job, g, resp, at, ttl, isRefresh, Encode(random));
    case AtAccess =>
      assert !ModeFor(w.cfg, g.client).Unknown? by { KnownMode(w, g); }
      AccessMoves(w, s, job, g, resp, random);
    case _ => StageMoves(w, s, job, g, resp, stage, random);
  }

  lemma QuietStep(w: World, s: State, s': State, job: nat, g: Grant, stage: Stage, random: seq<Byte>)
    requires Issued(w, s, s', job, g, stage, random) && job in s'.jobs && !stage.Timed?
    ensures HasStored(w, s, s', job, g.root, [])
  {
    hide Follows, MessageOf, HashToken, Encode;
  }

  lemma StoringStep(w: World, s: State, s': State, job: nat, g: Grant, stage: Stage, random: seq<Byte>)
    requires Issued(w, s, s', job, g, stage, random) && job in s'.jobs && stage.Timed?
    ensures HasStored(w, s, s', job, g.root, [random])
    ensures stage.isRefresh && OnTime(w, s, stage) ==> LastRow(w, s', g, random)
  {
    hide Follows, MessageOf, HashToken, Encode, FirstSixteen;
    assert Tokens([random]) == {Encode(random)} && RowKeys(w, [random]) == {HashToken(w.lib, Encode(random))};
  }

  /** A run that starts no refresh and spends no token. */
  ghost predicate QuietRun(w: World, s: State, es: seq<Event>) {
    AllowedRun(w, s, es) && ApartRun(w, s, es) && forall root :: Refreshes(w, s, es, root) == 0
  }

  lemma Prepended(w: World, s: State, e: Event, rest: seq<Event>, root: string)
    ensures Run(w, s, [e] + rest) == Run(w, Step(w, s, e), rest)
    ensures AllowedRun(w, s, [e] + rest) <==> Allowed(w, s, e) && AllowedRun(w, Step(w, s, e), rest)
    ensures ApartRun(w, s, [e] + rest) <==> Apart(s, e) && ApartRun(w, Step(w, s, e), rest)
    ensures Refreshes(w, s, [e] + rest, root) == SpentNow(s, e, root) + Refreshes(w, Step(w, s, e), rest, root)
  {
    hide Step, Allowed, Apart, SpentNow;
    assert ([e] + rest)[0] == e && ([e] + rest)[1..] == rest;
  }

  lemma QuietPrepend(w: World, s: State, job: nat, random: seq<Byte>, rest: seq<Event>)
    requires Allowed(w, s, Advance(job, random, false)) && job in s.jobs && s.jobs[job].Issuing?
    requires QuietRun(w, Step(w, s, Advance(job, random, false)), rest)
    ensures QuietRun(w, s, [Advance(job, random, false)] + rest)
    ensures Run(w, s, [Advance(job, random, false)] + rest) == Run(w, Step(w, s, Advance(job, random, false)), rest)
  {
    hide Step, Allowed, Run, AllowedRun, ApartRun, Refreshes;
    forall root ensures Refreshes(w, s, [Advance(job, random, false)] + rest, root) == 0 {
      Prepended(w, s, Advance(job, random, false), rest, root);
    }
    Prepended(w, s, Advance(job, random, false), rest, "");
  }

  lemma FreshRest(w: World, s: State, s1: State, job: nat, root: string, draws: seq<seq<Byte>>, n: nat)
    requires n <= |draws| && FreshDraws(s.log.seen, draws) && HasStored(w, s, s1, job, root, draws[..n])
    ensures FreshDraws(s1.log.seen, draws[n..])
  {
    hide Encode, RootOf, HashToken;
    forall d | d in draws[..n] ensures exists i :: 0 <= i < n && draws[i] == d {
      var i :| 0 <= i < |draws[..n]| && draws[..n][i] == d;
      assert draws[i] == d;
    }
  }

  lemma StepIssues(w: World, s: State, job: nat, g: Grant, resp: TokenSet, stage: Stage, random: seq<Byte>)
    requires job in s.jobs && s.jobs[job] == Issuing(g, resp, stage)
    ensures Step(w, s, Advance(job, random, false)) == Issue(w, s, job, g, resp, stage, random)
    ensures Issued(w, s, Step(w, s, Advance(job, random, false)), job, g, stage, random)
    ensures Allowed(w, s, Advance(job, random, false)) <==> (stage.Timed? ==> Encode(random) !in s.log.seen)
  {
    hide Act, Step, Issue, Issued, Encode;
    StepIs(w, s, Advance(job, random, false));
    AdvanceIssues(w, s, job, g, resp, stage, random, false);
    IssueEffect(w, s, job, g, resp, stage, random);
  }

  /** One step: the rows stored are the first `n` of the draws, and the handler owes the others. */
  lemma StoresNext(w: World, s: State, job: nat, g: Grant, resp: TokenSet, stage: Stage, draws: seq<seq<Byte>>)
    returns (random: seq<Byte>, n: nat)
    requires job in s.jobs && s.jobs[job] == Issuing(g, resp, stage) && StoresAll(w, g) && !stage.Complete?
    requires |draws| == StageOwes(w, g, stage) && FreshDraws(s.log.seen, draws)
    ensures Allowed(w, s, Advance(job, random, false))
    ensures var s1 := Step(w, s, Advance(job, random, false));
            && job in s1.jobs && s1.jobs[job].Issuing? && s1.jobs[job].g == g
            && StepsLeft(s1.jobs[job].stage) < StepsLeft(stage) && OnTime(w, s1, s1.jobs[job].stage)
            && n <= |draws| && |draws[n..]| == StageOwes(w, g, s1.jobs[job].stage) && FreshDraws(s1.log.seen, draws[n..])
            && HasStored(w, s, s1, job, g.root, draws[..n])
            && (n == |draws| > 0 && OnTime(w, s, stage) ==> LastRow(w, s1, g, draws[|draws| - 1]))
  {
    n := if stage.Timed? then 1 else 0;
    hide Issue, Encode, StoresAll, StepsLeft, HasStored, LastRow, OnTime, Step, Issued, Allowed;
    random := if stage.Timed? then draws[0] else [];
    StepIssues(w, s, job, g, resp, stage, random);
    Progress(w, s, job, g, resp, stage, random);
    var s1 := Step(w, s, Advance(job, random, false));
    if stage.Timed? {
      assert draws[..1] == [random];
      StoringStep(w, s, s1, job, g, stage, random);
    } else {
      assert draws[..0] == [];
      QuietStep(w, s, s1, job, g, stage, random);
    }
    FreshRest(w, s, s1, job, g.root, draws, n);
  }

  lemma StaysPut(w: World, s: State, job: nat, root: string)
    requires job in s.jobs && s.jobs[job].Issuing?
    ensures QuietRun(w, s, []) && Run(w, s, []) == s && HasStored(w, s, s, job, root, [])
  {
    hide Encode, HashToken, RootOf;
  }

  /** Left alone, such a handler stores all the rows it owes. */
  lemma {:induction false} RunsToRows(w: World, s: State, job: nat, g: Grant, resp: TokenSet, stage: Stage, draws: seq<seq<Byte>>)
    returns (es: seq<Event>)
    requires job in s.jobs && s.jobs[job] == Issuing(g, resp, stage) && StoresAll(w, g)
    requires |draws| == StageOwes(w, g, stage) && FreshDraws(s.log.seen, draws)
    ensures QuietRun(w, s, es) && HasStored(w, s, Run(w, s, es), job, g.root, draws)
    ensures draws != [] && OnTime(w, s, stage) ==> LastRow(w, Run(w, s, es), g, draws[|draws| - 1])
    ensures stage.Complete? ==> Run(w, s, es) == s
    decreases StepsLeft(stage)
  {
    hide Step, Encode, StoresAll, FreshDraws, HasStored, LastRow, OnTime, StepsLeft, QuietRun, Allowed, Run, PerHandler;
    if stage.Complete? {
      es := [];
      assert draws == [];
      StaysPut(w, s, job, g.root);
    } else {
      var random, n := StoresNext(w, s, job, g, resp, stage, draws);
      var s1 := Step(w, s, Advance(job, random, false));
      var rest := RunsToRows(w, s1, job, g, s1.jobs[job].resp, s1.jobs[job].stage, draws[n..]);
      es := [Advance(job, random, false)] + rest;
      QuietPrepend(w, s, job, random, rest);
      StoredOn(w, s, s1, Run(w, s1, rest), job, g.root, draws[..n], draws[n..]);
      assert draws[..n] + draws[n..] == draws;
      if n == |draws| {
        OwesNone(w, g, s1.jobs[job].stage);
      }
    }
  }

  lemma OwesNone(w: World, g: Grant, stage: Stage)
    requires StageOwes(w, g, stage) == 0
    ensures stage.Complete?
  {
  }

  // ---- a refresh left alone ----

  /** The handler that has just validated the token. */
  ghost predicate Entered(w: World, s: State, s': State, job: nat, client: Client, token: string, sess: Session) {
    && s'.now == s.now && s'.table == s.table && s'.log.origins == s.log.origins && OtherJobs(s, s', job)
    && s'.log.used == s.log.used + {job} && s'.log.seen == s.log.seen + {token}
    && job in s'.jobs && s'.jobs[job] == Validated(client, token, sess, RootOf(s, HashToken(w.lib, token)))
  }

  lemma EntersRefresh(w: World, s: State, job: nat, token: string, client: Client, sess: Session)
    requires token != "" && client.id in w.clients && w.clients[client.id] == client
    requires ValidateOpaque(w.lib, s.table, token, s.now) == Some(sess) && sess.clientID == client.id
    ensures Entered(w, s, Step(w, s, BeginRefresh(job, token, Credentials(client.id, client.secret, None))), job, client, token, sess)
  {
    var c := Credentials(client.id, client.secret, None);
    assert AuthenticateClient(w.clients, c) == Some(client);
    hide ValidateOpaque, HashToken, RootOf, AuthenticateClient, InsertCode, TakeCode, AdvanceJob, Background, Restarted;
  }

  /** From validation on, the handler spends the presented row and stores new ones of the same login. */
  ghost predicate Refreshed(w: World, s: State, s': State, job: nat, v: Job, draws: seq<seq<Byte>>)
    requires v.Validated?
  {
    && s'.now == s.now && OtherJobs(s, s', job) && job in s'.jobs && s'.jobs[job].Issuing?
    && s'.log.used == s.log.used && s'.log.seen == s.log.seen + Tokens(draws)
    && s'.table.Keys == s.table.Keys - {HashToken(w.lib, v.token)} + RowKeys(w, draws)
    && (forall k :: RootOf(s', k) == if k in RowKeys(w, draws) then v.root else RootOf(s, k))
  }

  /** A run that spends one token, of this login. */
  ghost predicate OneRefresh(w: World, s: State, es: seq<Event>, root: string) {
    AllowedRun(w, s, es) && ApartRun(w, s, es) && Refreshes(w, s, es, root) == 1
  }

  lemma SpentThenQuiet(w: World, s: State, job: nat, v: Job, rest: seq<Event>)
    requires job in s.jobs && s.jobs[job] == v && v.Validated?
    requires QuietRun(w, Step(w, s, Advance(job, [], false)), rest)
    ensures OneRefresh(w, s, [Advance(job, [], false)] + rest, v.root)
    ensures Run(w, s, [Advance(job, [], false)] + rest) == Run(w, Step(w, s, Advance(job, [], false)), rest)
  {
    hide Step, Run, AllowedRun, ApartRun, Refreshes;
    Prepended(w, s, Advance(job, [], false), rest, v.root);
  }

  lemma SpendsAndStores(w: World, s: State, job: nat, v: Job, draws: seq<seq<Byte>>) returns (es: seq<Event>)
    requires job in s.jobs && s.jobs[job] == v && v.Validated?
    requires !ModeFor(w.cfg, v.client).Unknown? && HasScope(v.sess.scope, "offline_access")
    requires |draws| == PerHandler(w, v.client) && FreshDraws(s.log.seen, draws)
    ensures OneRefresh(w, s, es, v.root) && Refreshed(w, s, Run(w, s, es), job, v, draws)
    ensures LastRow(w, Run(w, s, es), Grant(v.client, v.sess.subject, v.sess.scope, "", v.sess.issuedAt, v.root), draws[|draws| - 1])
  {
    var s1 := Step(w, s, Advance(job, [], false));
    StepIs(w, s, Advance(job, [], false));
    SpendEffect(w, s, job, [], false, v);
    var g := s1.jobs[job].g;
    hide Act, Step, Encode, HashToken, ModeFor, HasScope, FreshDraws, LastRow, QuietRun, OneRefresh, Run;
    var rest := RunsToRows(w, s1, job, g, s1.jobs[job].resp, s1.jobs[job].stage, draws);
    es := [Advance(job, [], false)] + rest;
    SpentThenQuiet(w, s, job, v, rest);
    SpentRows(w, s, s1, Run(w, s, es), job, v, draws);
  }

  lemma SpentRows(w: World, s: State, s1: State, s': State, job: nat, v: Job, draws: seq<seq<Byte>>)
    requires v.Validated? && RevokedRefresh(w, s, s1, job, v.client, v.token, v.sess, v.root)
    requires HasStored(w, s1, s', job, v.root, draws)
    ensures Refreshed(w, s, s', job, v, draws)
  {
    hide HashToken, Encode, RowKeys;
    assert s1.table.Keys == s.table.Keys - {HashToken(w.lib, v.token)};
    forall k ensures RootOf(s1, k) == RootOf(s, k) { SameRoot(s, s1, k); }
    hide RootOf;
  }

  lemma SameRoot(s: State, s': State, key: string)
    requires s'.log.origins == s.log.origins
    ensures RootOf(s', key) == RootOf(s, key)
  {
  }

  // ---- overlapping handlers ----

  lemma TwoSteps(w: World, s: State, e: Event, f: Event)
    ensures Run(w, s, [e, f]) == Step(w, Step(w, s, e), f)
    ensures AllowedRun(w, s, [e, f]) <==> Allowed(w, s, e) && Allowed(w, Step(w, s, e), f)
  {
    hide Step, Allowed;
    var s1 := Step(w, s, e);
    assert [e, f][1..] == [f] && [f][1..] == [];
    assert Run(w, s1, [f]) == Run(w, Step(w, s1, f), []) == Step(w, s1, f);
    assert AllowedRun(w, s1, [f]) <==> Allowed(w, s1, f) && AllowedRun(w, Step(w, s1, f), []);
  }

  /** Two handlers have validated the same token. */
  ghost predicate BothEntered(w: World, s: State, s2: State, i: nat, j: nat, client: Client, token: string, sess: Session) {
    var v := Validated(client, token, sess, RootOf(s, HashToken(w.lib, token)));
    && s2.log.seen == s.log.seen + {token} && s2.table == s.table && s2.log.origins == s.log.origins
    && i in s2.jobs && j in s2.jobs && s2.jobs[i] == s2.jobs[j] == v
  }

  lemma BothEnter(w: World, s: State, token: string, client: Client, sess: Session, i: nat, j: nat)
    requires token != "" && client.id in w.clients && w.clients[client.id] == client
    requires ValidateOpaque(w.lib, s.table, token, s.now) == Some(sess) && sess.clientID == client.id
    requires i != j && i !in s.log.used && j !in s.log.used
    ensures var c := Credentials(client.id, client.secret, None);
            var begin := [BeginRefresh(i, token, c), BeginRefresh(j, token, c)];
            AllowedRun(w, s, begin) && BothEntered(w, s, Run(w, s, begin), i, j, client, token, sess)
  {
    var c := Credentials(client.id, client.secret, None);
    var s1 := Step(w, s, BeginRefresh(i, token, c));
    EntersRefresh(w, s, i, token, client, sess);
    EntersRefresh(w, s1, j, token, client, sess);
    hide Step, HashToken, ValidateOpaque, RootOf, Run, AllowedRun;
    TwoSteps(w, s, BeginRefresh(i, token, c), BeginRefresh(j, token, c));
    SameRoot(s, s1, HashToken(w.lib, token));
  }

  lemma BothFinish(w: World, s: State, v: Job, i: nat, j: nat, q: seq<Byte>, r: seq<Byte>) returns (es: seq<Event>)
    requires HashInjective(w.lib) && i != j && i in s.jobs && j in s.jobs && s.jobs[i] == s.jobs[j] == v && v.Validated?
    requires ModeFor(w.cfg, v.client) == Stateless && HasScope(v.sess.scope, "offline_access") && v.token in s.log.seen
    requires Encode(q) != Encode(r) && Encode(q) !in s.log.seen && Encode(r) !in s.log.seen
    ensures AllowedRun(w, s, es)
    ensures var s' := Run(w, s, es);
            var a, b := HashToken(w.lib, Encode(q)), HashToken(w.lib, Encode(r));
            a != b && a in s'.table && b in s'.table && RootOf(s', a) == RootOf(s', b) == v.root
  {
    assert PerHandler(w, v.client) == 1;
    OneFresh(s.log.seen, q);
    hide Step, Encode, HashToken, ModeFor, HasScope, HashInjective, Run, AllowedRun, RootOf, LastRow, PerHandler, Refreshed, FreshDraws, OneRefresh;
    var first := SpendsAndStores(w, s, i, v, [q]);
    var s1 := Run(w, s, first);
    RefreshedOne(w, s, s1, i, v, q);
    OneFresh(s1.log.seen, r);
    var second := SpendsAndStores(w, s1, j, v, [r]);
    TwoStored(w, s, s1, Run(w, s1, second), i, j, v, q, r);
    OneAllowed(w, s, first, v.root);
    OneAllowed(w, s1, second, v.root);
    RunSplit(w, s, first, second);
    es := first + second;
  }

  lemma OneFresh(seen: set<string>, q: seq<Byte>)
    requires Encode(q) !in seen
    ensures FreshDraws(seen, [q])
  {
    hide Encode;
  }

  lemma OneAllowed(w: World, s: State, es: seq<Event>, root: string)
    requires OneRefresh(w, s, es, root)
    ensures AllowedRun(w, s, es)
  {
    hide AllowedRun, ApartRun, Refreshes;
  }

  lemma TwoStored(w: World, s: State, s1: State, s': State, i: nat, j: nat, v: Job, q: seq<Byte>, r: seq<Byte>)
    requires HashInjective(w.lib) && v.Validated? && v.token in s.log.seen && Encode(q) != Encode(r) && Encode(q) !in s.log.seen
    requires Refreshed(w, s, s1, i, v, [q]) && Refreshed(w, s1, s', j, v, [r])
    ensures var a, b := HashToken(w.lib, Encode(q)), HashToken(w.lib, Encode(r));
            a != b && a in s'.table && b in s'.table && RootOf(s', a) == RootOf(s', b) == v.root
  {
    hide Encode, HashToken, HashInjective, RootOf, Refreshed;
    if HashToken(w.lib, Encode(q)) == HashToken(w.lib, Encode(r)) { HashTokenInjective(w.lib, Encode(q), Encode(r)); }
    if HashToken(w.lib, Encode(q)) == HashToken(w.lib, v.token) { HashTokenInjective(w.lib, Encode(q), v.token); }
    RefreshedOne(w, s, s1, i, v, q);
    RefreshedOne(w, s1, s', j, v, r);
    assert HashToken(w.lib, Encode(q)) in s'.table.Keys;
  }

  lemma RefreshedOne(w: World, s: State, s': State, job: nat, v: Job, q: seq<Byte>)
    requires v.Validated? && Refreshed(w, s, s', job, v, [q])
    ensures s'.log.seen == s.log.seen + {Encode(q)}
    ensures s'.table.Keys == s.table.Keys - {HashToken(w.lib, v.token)} + {HashToken(w.lib, Encode(q))}
    ensures forall k :: RootOf(s', k) == if k == HashToken(w.lib, Encode(q)) then v.root else RootOf(s, k)
    ensures forall j :: j != job && j in s.jobs ==> j in s'.jobs && s'.jobs[j] == s.jobs[j]
  {
    hide Encode, HashToken, RootOf;
    assert Tokens([q]) == {Encode(q)} && RowKeys(w, [q]) == {HashToken(w.lib, Encode(q))};
  }

  /**
   Keeping handlers apart is needed: whenever a refresh token of a stateless-mode client with
   offline access validates, two handlers that both validate it before either revokes it go on to
   store two rows of the same login.
   */
  lemma OverlapDoubles(w: World, s: State, token: string, sess: Session, i: nat, j: nat, q: seq<Byte>, r: seq<Byte>)
    returns (es: seq<Event>)
    requires WellConfigured(w) && Reachable(w, s) && token != ""
    requires ValidateOpaque(w.lib, s.table, token, s.now) == Some(sess)
    requires sess.clientID in w.clients && ModeFor(w.cfg, w.clients[sess.clientID]) == Stateless
    requires HasScope(sess.scope, "offline_access")
    requires i != j && i !in s.log.used && j !in s.log.used
    requires Encode(q) != Encode(r) && Encode(q) !in s.log.seen && Encode(r) !in s.log.seen
    ensures AllowedRun(w, s, es)
    ensures var s' := Run(w, s, es);
            exists a, b :: a != b && a in s'.table && b in s'.table
                           && RootOf(s', a) == RootOf(s', b) == RootOf(s, HashToken(w.lib, token))
  {
    ReachableNamed(w, s);
    LiveIsSeen(w, s, token);
    var client := w.clients[sess.clientID];
    hide Reachable, RowsNamed, Step, Encode, HashToken, ModeFor, HasScope, ValidateOpaque, HashInjective, Run, AllowedRun, RootOf;
    var c := Credentials(client.id, client.secret, None);
    var begin := [BeginRefresh(i, token, c), BeginRefresh(j, token, c)];
    BothEnter(w, s, token, client, sess, i, j);
    var s2 := Run(w, s, begin);
    var rest := BothFinish(w, s2, s2.jobs[i], i, j, q, r);
    RunSplit(w, s, begin, rest);
    es := begin + rest;
  }

  lemma LiveIsSeen(w: World, s: State, token: string)
    requires HashInjective(w.lib) && RowsNamed(w, s) && ValidateOpaque(w.lib, s.table, token, s.now).Some?
    ensures token in s.log.seen
  {
    var key := HashToken(w.lib, token);
    assert RowNamed(w, s, key);
    HashTokenInjective(w.lib, token, s.log.origins[key].token);
  }

  // ---- one refresh after another ----

  function RowsOf(s: State, root: string): set<string> {
    set k | k in s.table && RootOf(s, k) == root
  }

  /** No handler is between validating a refresh token and revoking it. */
  predicate NoneChecking(s: State) {
    forall j :: j in s.jobs ==> !s.jobs[j].Validated?
  }

  lemma NewKey(w: World, s: State, token: string)
    requires HashInjective(w.lib) && RowsNamed(w, s) && token !in s.log.seen
    ensures HashToken(w.lib, token) !in s.table
  {
    var key := HashToken(w.lib, token);
    if key in s.table {
      assert RowNamed(w, s, key);
      HashTokenInjective(w.lib, token, s.log.origins[key].token);
    }
  }

  lemma TwoKeys(w: World, q: seq<Byte>, r: seq<Byte>)
    requires HashInjective(w.lib) && Encode(q) != Encode(r)
    ensures RowKeys(w, [q, r]) == {HashToken(w.lib, Encode(q)), HashToken(w.lib, Encode(r))} && |RowKeys(w, [q, r])| == 2
  {
    if HashToken(w.lib, Encode(q)) == HashToken(w.lib, Encode(r)) { HashTokenInjective(w.lib, Encode(q), Encode(r)); }
    hide HashToken, Encode, HashInjective;
    var a, b := HashToken(w.lib, Encode(q)), HashToken(w.lib, Encode(r));
    assert [q, r][0] == q && [q, r][1] == r;
    assert RowKeys(w, [q, r]) == {a, b};
  }

  /** A live row of a stateful client that has asked for a refresh token. */
  predicate Refreshable(w: World, s: State, token: string, client: Client, sess: Session) {
    && token != "" && client.id in w.clients && w.clients[client.id] == client
    && ValidateOpaque(w.lib, s.table, token, s.now) == Some(sess) && sess.clientID == client.id
    && ModeFor(w.cfg, client) == Stateful && HasScope(sess.scope, "offline_access")
  }

  lemma NextRefreshable(w: World, s: State, client: Client, g: Grant, r: seq<Byte>)
    requires LastRow(w, s, g, r) && g.client == client && client.id in w.clients && w.clients[client.id] == client
    requires ModeFor(w.cfg, client) == Stateful && HasScope(g.scope, "offline_access") && 0 <= w.cfg.refreshTTL && Encode(r) != ""
    ensures HashToken(w.lib, Encode(r)) in s.table
    ensures Refreshable(w, s, Encode(r), client, s.table[HashToken(w.lib, Encode(r))].session)
  {
    hide Encode, HashToken, ModeFor, HasScope;
  }

  /** A row for a row, and one more. */
  lemma OneMore(w: World, s: State, s1: State, s': State, job: nat, token: string, client: Client, sess: Session, q: seq<Byte>, r: seq<Byte>)
    requires HashInjective(w.lib) && RowsNamed(w, s) && HashToken(w.lib, token) in s.table && FreshDraws(s.log.seen, [q, r])
    requires Entered(w, s, s1, job, client, token, sess) && Refreshed(w, s1, s', job, s1.jobs[job], [q, r])
    ensures var root := RootOf(s, HashToken(w.lib, token));
            && |RowsOf(s', root)| == |RowsOf(s, root)| + 1 && RootOf(s', HashToken(w.lib, Encode(r))) == root
  {
    var key := HashToken(w.lib, token);
    var root, added := RootOf(s, key), RowKeys(w, [q, r]);
    hide Encode, HashToken, RootOf, RowsNamed, HashInjective, RowKeys, FreshDraws, Entered, Refreshed, RowsOf;
    DrawnApart(s.log.seen, q, r);
    NewKey(w, s, Encode(q));
    NewKey(w, s, Encode(r));
    TwoKeys(w, q, r);
    RootsAfter(w, s, s1, s', job, token, client, sess, [q, r]);
    RowsAfter(s, s', root, key, added);
  }

  lemma DrawnApart(seen: set<string>, q: seq<Byte>, r: seq<Byte>)
    requires FreshDraws(seen, [q, r])
    ensures Encode(q) !in seen && Encode(r) !in seen && Encode(q) != Encode(r)
  {
    hide Encode;
    assert [q, r][0] == q && [q, r][1] == r;
  }

  lemma RootsAfter(w: World, s: State, s1: State, s': State, job: nat, token: string, client: Client, sess: Session, draws: seq<seq<Byte>>)
    requires Entered(w, s, s1, job, client, token, sess) && Refreshed(w, s1, s', job, s1.jobs[job], draws)
    ensures var key, added := HashToken(w.lib, token), RowKeys(w, draws);
            && s'.table.Keys == s.table.Keys - {key} + added
            && forall k :: RootOf(s', k) == if k in added then RootOf(s, key) else RootOf(s, k)
  {
    forall k ensures RootOf(s1, k) == RootOf(s, k) { SameRoot(s, s1, k); }
    hide RootOf, HashToken, RowKeys, Tokens;
  }

  lemma RowsAfter(s: State, s': State, root: string, key: string, added: set<string>)
    requires key in s.table && RootOf(s, key) == root && added !! s.table.Keys && |added| == 2
    requires s'.table.Keys == s.table.Keys - {key} + added
    requires forall k :: RootOf(s', k) == if k in added then root else RootOf(s, k)
    ensures |RowsOf(s', root)| == |RowsOf(s, root)| + 1
  {
    hide RootOf;
    forall k ensures k in s'.table <==> k in s'.table.Keys {}
    assert RowsOf(s', root) == (RowsOf(s, root) - {key}) + added;
  }

  lemma StillNone(w: World, s: State, s1: State, s': State, job: nat)
    requires NoneChecking(s) && OtherJobs(s, s1, job) && OtherJobs(s1, s', job) && job in s'.jobs && s'.jobs[job].Issuing?
    ensures NoneChecking(s')
  {
  }

  /** One refresh leaves another token to present. */
  lemma RefreshAdds(w: World, s: State, job: nat, token: string, client: Client, sess: Session, q: seq<Byte>, r: seq<Byte>)
    returns (es: seq<Event>)
    requires HashInjective(w.lib) && RowsNamed(w, s) && Refreshable(w, s, token, client, sess) && NoneChecking(s)
    requires job !in s.log.used && 0 <= w.cfg.refreshTTL && Encode(r) != "" && FreshDraws(s.log.seen, [q, r])
    ensures var root, s' := RootOf(s, HashToken(w.lib, token)), Run(w, s, es);
            && OneRefresh(w, s, es, root) && NoneChecking(s') && |RowsOf(s', root)| == |RowsOf(s, root)| + 1
            && RootOf(s', HashToken(w.lib, Encode(r))) == root
            && s'.log.used == s.log.used + {job} && s'.log.seen == s.log.seen + Tokens([q, r])
            && HashToken(w.lib, Encode(r)) in s'.table
            && Refreshable(w, s', Encode(r), client, s'.table[HashToken(w.lib, Encode(r))].session)
  {
    var e := BeginRefresh(job, token, Credentials(client.id, client.secret, None));
    var s1 := Step(w, s, e);
    EntersRefresh(w, s, job, token, client, sess);
    LiveIsSeen(w, s, token);
    assert s1.log.seen == s.log.seen;
    var v := s1.jobs[job];
    hide Step, Encode, HashToken, ModeFor, HasScope, FreshDraws, LastRow, Refreshed, RootOf, Run, AllowedRun, ApartRun, Refreshes, RowsNamed,
      HashInjective, Tokens, RowsOf;
    var rest := SpendsAndStores(w, s1, job, v, [q, r]);
    es := [e] + rest;
    var s' := Run(w, s1, rest);
    Prepended(w, s, e, rest, v.root);
    OneMore(w, s, s1, s', job, token, client, sess, q, r);
    NextRefreshable(w, s', client, Grant(v.client, v.sess.subject, v.sess.scope, "", v.sess.issuedAt, v.root), r);
    RefreshedFrame(w, s1, s', job, v, [q, r]);
    StillNone(w, s, s1, s', job);
  }

  lemma RefreshedFrame(w: World, s: State, s': State, job: nat, v: Job, draws: seq<seq<Byte>>)
    requires v.Validated? && Refreshed(w, s, s', job, v, draws)
    ensures OtherJobs(s, s', job) && job in s'.jobs && s'.jobs[job].Issuing?
    ensures s'.log.used == s.log.used && s'.log.seen == s.log.seen + Tokens(draws)
  {
    hide HashToken, RootOf, Encode;
  }

  predicate FreshJobs(used: set<nat>, jobs: seq<nat>) {
    && (forall i :: 0 <= i < |jobs| ==> jobs[i] !in used)
    && (forall i, j :: 0 <= i < j < |jobs| ==> jobs[i] != jobs[j])
  }

  /** A run with so many refreshes of the login, handlers of one token kept apart. */
  ghost predicate HasRefreshes(w: World, s: State, es: seq<Event>, root: string, n: nat) {
    AllowedRun(w, s, es) && ApartRun(w, s, es) && Refreshes(w, s, es, root) == n
  }

  lemma {:induction false} JoinedRuns(w: World, s: State, a: seq<Event>, b: seq<Event>, root: string, n: nat, m: nat)
    requires HasRefreshes(w, s, a, root, n) && HasRefreshes(w, Run(w, s, a), b, root, m)
    ensures HasRefreshes(w, s, a + b, root, n + m) && Run(w, s, a + b) == Run(w, Run(w, s, a), b)
    decreases |a|
  {
    hide Step, Allowed, Apart, SpentNow;
    if a == [] {
      assert a + b == b;
    } else {
      assert (a + b)[0] == a[0] && (a + b)[1..] == a[1..] + b;
      JoinedRuns(w, Step(w, s, a[0]), a[1..], b, root, n - SpentNow(s, a[0], root), m);
    }
  }

  lemma DrawsLeft(seen: set<string>, draws: seq<seq<Byte>>)
    requires 2 <= |draws| && FreshDraws(seen, draws)
    ensures FreshDraws(seen, [draws[0], draws[1]]) && FreshDraws(seen + Tokens([draws[0], draws[1]]), draws[2..])
  {
    hide Encode;
    assert [draws[0], draws[1]][0] == draws[0] && [draws[0], draws[1]][1] == draws[1];
  }

  /** Refreshes one after another, each with the refresh token of the one before: a row more each time. */
  lemma {:induction false} RefreshesGrow(w: World, s: State, token: string, client: Client, sess: Session, jobs: seq<nat>, draws: seq<seq<Byte>>)
    returns (es: seq<Event>)
    requires WellConfigured(w) && Invariants(w, s) && Refreshable(w, s, token, client, sess) && NoneChecking(s) && 0 <= w.cfg.refreshTTL
    requires FreshJobs(s.log.used, jobs) && |draws| == 2 * |jobs| && FreshDraws(s.log.seen, draws)
    requires forall d :: d in draws ==> Encode(d) != ""
    ensures var root := RootOf(s, HashToken(w.lib, token));
            && HasRefreshes(w, s, es, root, |jobs|)
            && |RowsOf(Run(w, s, es), root)| == |RowsOf(s, root)| + |jobs|
    decreases |jobs|
  {
    var root := RootOf(s, HashToken(w.lib, token));
    hide Step, Encode, HashToken, RootOf, FreshDraws, Refreshable, NoneChecking, RowsOf, Traced, Once, RowsNamed, JsonRoundTrips, HashInjective,
      SignaturesMatch, Tokens;
    if jobs == [] {
      es := [];
    } else {
      hide Run, AllowedRun, ApartRun, Refreshes;
      DrawsLeft(s.log.seen, draws);
      var first := RefreshAdds(w, s, jobs[0], token, client, sess, draws[0], draws[1]);
      var s1 := Run(w, s, first);
      RunKept(w, s, first);
      var key := HashToken(w.lib, Encode(draws[1]));
      var rest := RefreshesGrow(w, s1, Encode(draws[1]), client, s1.table[key].session, jobs[1..], draws[2..]);
      es := first + rest;
      JoinedRuns(w, s, first, rest, root, 1, |jobs| - 1);
    }
  }

  /** The two rows of the first handler. */
  lemma FirstTwo(w: World, s: State, s1: State, job: nat, g: Grant, q: seq<Byte>, r: seq<Byte>)
    requires HashInjective(w.lib) && HasStored(w, s, s1, job, g.root, [q, r]) && Encode(q) != Encode(r)
    requires RowsOf(s, g.root) == {} && NoneChecking(s)
    ensures |RowsOf(s1, g.root)| == 2 && NoneChecking(s1) && RootOf(s1, HashToken(w.lib, Encode(r))) == g.root
    ensures s1.log.used == s.log.used && s1.log.seen == s.log.seen + Tokens([q, r])
  {
    hide Encode, HashToken, RootOf, HashInjective, RowKeys, Tokens, RowsOf, NoneChecking, OtherJobs;
    TwoKeys(w, q, r);
    assert NoneChecking(s1) by { Unchanged(s, job); StillNone(w, s, s, s1, job); }
    RowsFromNone(s, s1, g.root, RowKeys(w, [q, r]));
  }

  lemma Unchanged(s: State, job: nat)
    ensures OtherJobs(s, s, job)
  {
  }

  lemma RowsFromNone(s: State, s1: State, root: string, keys: set<string>)
    requires RowsOf(s, root) == {} && s1.table.Keys == s.table.Keys + keys
    requires forall k :: RootOf(s1, k) == if k in keys then root else RootOf(s, k)
    ensures RowsOf(s1, root) == keys
  {
    hide RootOf;
    forall k | k in s.table.Keys ensures RootOf(s, k) != root {
      assert k in s.table && RootOf(s, k) == root ==> k in RowsOf(s, root);
    }
    forall k ensures k in RowsOf(s1, root) <==> k in keys {
      assert k in s1.table <==> k in s1.table.Keys;
    }
  }

  lemma QuietHasNone(w: World, s: State, es: seq<Event>, root: string)
    requires QuietRun(w, s, es)
    ensures HasRefreshes(w, s, es, root, 0)
  {
    hide AllowedRun, ApartRun, Refreshes;
  }

  /** The handler that redeemed the code, left alone. */
  lemma FirstStores(w: World, s: State, job: nat, g: Grant, client: Client, q: seq<Byte>, r: seq<Byte>) returns (es: seq<Event>)
    requires HashInjective(w.lib) && job in s.jobs && s.jobs[job] == Begin(g) && RowsOf(s, g.root) == {}
    requires g.client == client && client.id in w.clients && w.clients[client.id] == client
    requires ModeFor(w.cfg, client) == Stateful && HasScope(g.scope, "offline_access") && 0 <= w.cfg.refreshTTL
    requires NoneChecking(s) && FreshDraws(s.log.seen, [q, r]) && Encode(r) != ""
    ensures var s1 := Run(w, s, es);
            && HasRefreshes(w, s, es, g.root, 0) && |RowsOf(s1, g.root)| == 2 && NoneChecking(s1)
            && s1.log.used == s.log.used && s1.log.seen == s.log.seen + Tokens([q, r])
            && RootOf(s1, HashToken(w.lib, Encode(r))) == g.root && HashToken(w.lib, Encode(r)) in s1.table
            && Refreshable(w, s1, Encode(r), client, s1.table[HashToken(w.lib, Encode(r))].session)
  {
    DrawnApart(s.log.seen, q, r);
    hide Encode, HashToken, RootOf, FreshDraws, NoneChecking, RowsOf, HashInjective, Tokens, Run, HasScope, ModeFor, QuietRun, HasStored,
      LastRow, Refreshable, HasRefreshes;
    es := RunsToRows(w, s, job, g, s.jobs[job].resp, AtAccess, [q, r]);
    FirstTwo(w, s, Run(w, s, es), job, g, q, r);
    QuietHasNone(w, s, es, g.root);
    NextRefreshable(w, Run(w, s, es), client, g, r);
  }

  /**
   The bound of `RowsOfLogin` is reached, whatever the number of refreshes: a handler of a stateful
   client that has just redeemed a code stores two rows, and every refresh after it adds one.
   */
  lemma BoundReached(w: World, s: State, job: nat, g: Grant, jobs: seq<nat>, draws: seq<seq<Byte>>) returns (es: seq<Event>)
    requires WellConfigured(w) && Reachable(w, s) && job in s.jobs && s.jobs[job] == Begin(g) && RowsOf(s, g.root) == {}
    requires ModeFor(w.cfg, g.client) == Stateful && HasScope(g.scope, "offline_access") && 0 <= w.cfg.refreshTTL
    requires NoneChecking(s) && FreshJobs(s.log.used, jobs)
    requires |draws| == 2 + 2 * |jobs| && FreshDraws(s.log.seen, draws) && forall d :: d in draws ==> Encode(d) != ""
    ensures HasRefreshes(w, s, es, g.root, |jobs|)
    ensures |RowsOf(Run(w, s, es), g.root)| == RowBound(w, g.client, |jobs|)
  {
    hide Encode, HashToken, RootOf, FreshDraws, FreshJobs, NoneChecking, RowsOf, Invariants, JsonRoundTrips, HashInjective, SignaturesMatch,
      Tokens, Run, AllowedRun, Reachable, HasScope, ModeFor, Refreshable, HasRefreshes, Begin, AuthenticateClient;
    ReachableKept(w, s);
    BeginIssues(g);
    var client := RegisteredClient(w, s, job);
    DrawsLeft(s.log.seen, draws);
    var first := FirstStores(w, s, job, g, client, draws[0], draws[1]);
    var s1 := Run(w, s, first);
    assert AllowedRun(w, s, first) by { HasAllowed(w, s, first, g.root, 0); }
    RunKept(w, s, first);
    var sess := s1.table[HashToken(w.lib, Encode(draws[1]))].session;
    var rest := RefreshesGrow(w, s1, Encode(draws[1]), client, sess, jobs, draws[2..]);
    es := first + rest;
    JoinedRuns(w, s, first, rest, g.root, 0, |jobs|);
  }

  lemma BeginIssues(g: Grant)
    ensures Begin(g).Issuing? && Begin(g).g == g
  {
  }

  lemma HasAllowed(w: World, s: State, es: seq<Event>, root: string, n: nat)
    requires HasRefreshes(w, s, es, root, n)
    ensures AllowedRun(w, s, es)
  {
    hide AllowedRun, ApartRun, Refreshes;
  }
}
