/**
 Refresh tokens rotate. If handlers of the same refresh token are kept apart between validating it and
 revoking it, a client with stateless access tokens has at most one table row per login at any time;
 a stateful client, whose access tokens refresh too, at most two and one more for each refresh.
 */
module RefreshChain {
  import opened Wrappers
  import opened Base64Url
  import opened Primitives
  import opened Sessions
  import opened Stores
  import opened Grants
  import opened Sidecar
  import opened SingleUse
  import opened Provenance
  import opened OpaqueTokens

  // ---- what may still become a row ----

  /** Something rows can come from, or a row: the code itself, a handler, or the row under a key. */
  datatype Holder = OfCode | OfJob(job: nat) | OfRow(key: string)

  /** One of the rows that the holder is or may still lead to. */
  datatype Slot = Slot(h: Holder, i: nat)

  /** How many rows a handler stores that issues all it can: the refresh row, and before it a stateful client's access row. */
  function PerHandler(w: World, c: Client): nat {
    if ModeFor(w.cfg, c) == Stateful then 2 else 1
  }

  /** How many rows a handler can still store. */
  function StageOwes(w: World, g: Grant, stage: Stage): nat {
    match stage
    case Complete => 0
    case AtAccess => PerHandler(w, g.client)
    case Timed(_, _, isRefresh) => if isRefresh then 1 else 2
    case _ => 1
  }

  function JobOwes(w: World, job: Job, root: string, u: nat): nat {
    match job
    case Looked(x, _, _) => if x.code == root then u else 0
    case Validated(_, _, _, _) => 0
    case Issuing(g, _, stage) => if g.root == root then StageOwes(w, g, stage) else 0
  }

  /** A handler has validated the row's token and not revoked it yet, whatever has become of the row. */
  ghost predicate BeingSpent(w: World, s: State, root: string, key: string) {
    exists j :: j in s.jobs && s.jobs[j].Validated? && s.jobs[j].root == root && HashToken(w.lib, s.jobs[j].token) == key
  }

  /** The rows of a login, present or possible; `u` is how many a redeemed code can lead to. */
  ghost predicate Owes(w: World, s: State, root: string, u: nat, x: Slot) {
    match x.h
    case OfCode => root in s.codes && x.i < u
    case OfJob(j) => j in s.jobs && x.i < JobOwes(w, s.jobs[j], root, u)
    case OfRow(k) => x.i == 0 && ((k in s.table && RootOf(s, k) == root) || BeingSpent(w, s, root, k))
  }

  ghost predicate Covers(w: World, s: State, root: string, u: nat, c: set<Slot>) {
    forall x :: Owes(w, s, root, u, x) ==> x in c
  }

  /** At most `n` rows, present and possible. */
  ghost predicate Bounded(w: World, s: State, root: string, u: nat, n: int) {
    exists c :: Covers(w, s, root, u, c) && |c| <= n
  }

  /** What a restart would leave. */
  function Loaded(s: State): State {
    s.(table := s.disk, codes := map[], jobs := map[])
  }

  /** No two handlers are validating the same refresh token. */
  ghost predicate KeptApart(s: State) {
    forall i, j | i in s.jobs && j in s.jobs && s.jobs[i].Validated? && s.jobs[j].Validated? ::
      s.jobs[i].token == s.jobs[j].token ==> i == j
  }

  /** The login's client, if it has happened and the client is registered, gets no more than `u` rows from one handler. */
  ghost predicate Fits(w: World, s: State, root: string, u: nat) {
    root in s.log.logins && s.log.logins[root].code.clientID in w.clients ==>
      PerHandler(w, w.clients[s.log.logins[root].code.clientID]) <= u
  }

  /** The refresh token presented is not being validated by another handler right now. */
  predicate Apart(s: State, e: Event) {
    e.BeginRefresh? ==> forall j :: j in s.jobs && s.jobs[j].Validated? ==> s.jobs[j].token != e.token
  }

  predicate ApartRun(w: World, s: State, es: seq<Event>)
    decreases |es|
  {
    es != [] ==> Apart(s, es[0]) && ApartRun(w, Step(w, s, es[0]), es[1..])
  }

  /** Whether a step spends a refresh token of the login. */
  function SpentNow(s: State, e: Event, root: string): nat {
    if e.Advance? && e.job in s.jobs && s.jobs[e.job].Validated? && s.jobs[e.job].root == root then 1 else 0
  }

  /** How many refreshes of the login a run has. */
  function Refreshes(w: World, s: State, es: seq<Event>, root: string): nat
    decreases |es|
  {
    if es == [] then 0 else SpentNow(s, es[0], root) + Refreshes(w, Step(w, s, es[0]), es[1..], root)
  }

  // ---- sizes ----

  function Slots(h: Holder, n: nat): (c: set<Slot>)
    ensures |c| == n && forall x :: x in c <==> x.h == h && x.i < n
  {
    if n == 0 then {} else Slots(h, n - 1) + {Slot(h, n - 1)}
  }

  lemma Exchanged(c: set<Slot>, gone: set<Slot>, come: set<Slot>)
    requires gone <= c
    ensures |c - gone + come| <= |c| - |gone| + |come|
  {
    assert c == (c - gone) + gone;
    assert c - gone + come == (c - gone) + (come - (c - gone));
    assert |come - (c - gone)| <= |come| by { Inside(come - (c - gone), come); }
  }

  lemma {:induction false} Inside<T>(a: set<T>, b: set<T>)
    requires a <= b
    ensures |a| <= |b|
  {
    assert b == a + (b - a);
  }

  lemma {:induction false} KeysFit(keys: set<string>, c: set<Slot>)
    requires forall k :: k in keys ==> Slot(OfRow(k), 0) in c
    ensures |keys| <= |c|
    decreases |keys|
  {
    if k :| k in keys {
      var x := Slot(OfRow(k), 0);
      KeysFit(keys - {k}, c - {x});
      assert |keys - {k}| == |keys| - 1 && |c - {x}| == |c| - 1;
    }
  }

  // ---- each step ----

  /** Whatever may still become a row of the root was there before, as the same thing. */
  ghost predicate Fewer(w: World, s: State, s': State, root: string, u: nat) {
    forall x :: Owes(w, s', root, u, x) ==> Owes(w, s, root, u, x)
  }

  lemma StillBounded(w: World, s: State, s': State, root: string, u: nat, n: int)
    requires Bounded(w, s, root, u, n) && Fewer(w, s, s', root, u)
    ensures Bounded(w, s', root, u, n)
  {
    hide Owes;
    var c :| Covers(w, s, root, u, c) && |c| <= n;
    assert Covers(w, s', root, u, c);
  }

  /** Slots given up for as many others, or more. */
  lemma ExchangedBounded(w: World, s: State, s': State, root: string, u: nat, n: int, gone: set<Slot>, come: set<Slot>)
    requires Bounded(w, s, root, u, n)
    requires forall x :: x in gone ==> Owes(w, s, root, u, x)
    requires forall x :: Owes(w, s', root, u, x) ==> x in come || (Owes(w, s, root, u, x) && x !in gone)
    ensures Bounded(w, s', root, u, n - |gone| + |come|)
  {
    hide Owes;
    var c :| Covers(w, s, root, u, c) && |c| <= n;
    Exchanged(c, gone, come);
    assert Covers(w, s', root, u, c - gone + come);
  }

  lemma BackgroundFewer(w: World, s: State, s': State, root: string, u: nat)
    requires OnlyBackground(s, s')
    ensures Fewer(w, s, s', root, u)
  {
    hide JobOwes, HashToken;
  }

  /** A restart leaves what the disk has, and nothing else. */
  lemma RestartFewer(w: World, s: State, s': State, root: string, u: nat)
    requires OnlyRestarts(s, s')
    ensures Fewer(w, Loaded(s), s', root, u)
  {
    hide JobOwes, HashToken;
  }

  /** Nothing can go back to a login that has not happened. */
  lemma NoneBeforeLogin(w: World, s: State, root: string, u: nat, x: Slot)
    requires Traced(w, s) && root !in s.log.logins
    ensures !Owes(w, s, root, u, x)
  {
    hide ClockOk, LoginOk, RedeemedOk, MintedFrom, IsClient, InRange, StageFrom, HashToken, StageOwes;
  }

  lemma InsertBounded(w: World, s: State, s': State, code: string, login: Login, root: string, u: nat, n: int)
    requires Traced(w, s) && Once(s) && Inserted(s, s', code, login) && code !in s.log.seen
    requires Bounded(w, s, root, u, n) && u <= n
    ensures Bounded(w, s', root, u, n)
  {
    assert code !in s.log.logins;
    hide Traced, Once;
    if root == code {
      FreshSlots(w, s, s', code, login, u);
      assert Covers(w, s', root, u, Slots(OfCode, u));
    } else {
      OtherFewer(w, s, s', code, login, root, u);
      StillBounded(w, s, s', root, u, n);
    }
  }

  lemma FreshSlots(w: World, s: State, s': State, code: string, login: Login, u: nat)
    requires Traced(w, s) && Inserted(s, s', code, login) && code !in s.log.logins
    ensures forall x :: Owes(w, s', code, u, x) ==> x in Slots(OfCode, u)
  {
    hide Traced, JobOwes, HashToken;
    forall x | Owes(w, s', code, u, x) ensures x in Slots(OfCode, u) {
      NoneBeforeLogin(w, s, code, u, x);
    }
  }

  lemma OtherFewer(w: World, s: State, s': State, code: string, login: Login, root: string, u: nat)
    requires Inserted(s, s', code, login) && root != code
    ensures Fewer(w, s, s', root, u)
  {
    hide JobOwes, HashToken;
  }

  /** Taking the code turns it into the handler that took it. */
  lemma TakeBounded(w: World, s: State, s': State, job: nat, x: Exchange, client: Client, root: string, u: nat, n: int)
    requires job !in s.jobs && TookCode(s, s', job, x, client) && Bounded(w, s, root, u, n)
    ensures Bounded(w, s', root, u, n)
  {
    hide Bounded, Owes, Fewer, TookCode;
    TakenSlots(w, s, s', job, x, client, root, u);
    if x.code == root && root in s.codes {
      ExchangedBounded(w, s, s', root, u, n, Slots(OfCode, u), Slots(OfJob(job), u));
    } else {
      StillBounded(w, s, s', root, u, n);
    }
  }

  lemma TakenSlots(w: World, s: State, s': State, job: nat, x: Exchange, client: Client, root: string, u: nat)
    requires job !in s.jobs && TookCode(s, s', job, x, client)
    ensures if x.code == root && root in s.codes then
              && (forall y :: y in Slots(OfCode, u) ==> Owes(w, s, root, u, y))
              && (forall y :: Owes(w, s', root, u, y) ==> y in Slots(OfJob(job), u) || (Owes(w, s, root, u, y) && y !in Slots(OfCode, u)))
            else Fewer(w, s, s', root, u)
  {
    forall y | Owes(w, s', root, u, y)
      ensures if y.h == OfJob(job) then x.code == root && root in s.codes && y.i < u
              else Owes(w, s, root, u, y) && !(y.h == OfCode && x.code == root)
    {
      TakenSlot(w, s, s', job, x, client, root, u, y);
    }
    hide Owes, TookCode;
    forall i: nat | root in s.codes && i < u ensures Owes(w, s, root, u, Slot(OfCode, i)) { CodeOwes(w, s, root, u, i); }
  }

  lemma CodeOwes(w: World, s: State, root: string, u: nat, i: nat)
    requires root in s.codes && i < u
    ensures Owes(w, s, root, u, Slot(OfCode, i))
  {
  }

  lemma TakenSlot(w: World, s: State, s': State, job: nat, x: Exchange, client: Client, root: string, u: nat, y: Slot)
    requires job !in s.jobs && TookCode(s, s', job, x, client) && Owes(w, s', root, u, y)
    ensures if y.h == OfJob(job) then x.code == root && root in s.codes && y.i < u
            else Owes(w, s, root, u, y) && !(y.h == OfCode && x.code == root)
  {
    hide HashToken, StageOwes;
    if y.h.OfRow? && BeingSpent(w, s', root, y.h.key) {
      var j :| j in s'.jobs && s'.jobs[j].Validated? && s'.jobs[j].root == root && HashToken(w.lib, s'.jobs[j].token) == y.h.key;
      assert j in s.jobs && s.jobs[j] == s'.jobs[j];
    }
  }

  /** A handler that has validated a refresh token stands for the token's row. */
  lemma CheckFewer(w: World, s: State, s': State, job: nat, token: string, root: string, u: nat)
    requires CheckedRefresh(w, s, s', job, token)
    ensures Fewer(w, s, s', root, u)
  {
    hide HashToken, IsClient, StageOwes;
  }

  /** A registered client is the one its id names. */
  lemma GrantFits(w: World, s: State, g: Grant, u: nat)
    requires (forall id :: id in w.clients ==> w.clients[id].id == id)
    requires Fits(w, s, g.root, u) && GrantFrom(w, s, g)
    ensures PerHandler(w, g.client) <= u
  {
    hide PerHandler, InRange;
  }

  lemma RedeemBounded(w: World, s: State, s': State, job: nat, x: Exchange, client: Client, ac: AuthCode, root: string, u: nat, n: int)
    requires WellConfigured(w) && Traced(w, s') && Fits(w, s', root, u) && Bounded(w, s, root, u, n)
    requires job in s.jobs && s.jobs[job] == Looked(x, client, ac) && Redeemed(w, s, s', job, x, client, ac)
    ensures Bounded(w, s', root, u, n)
  {
    hide PerHandler, CheckExchange, Bounded, Fewer;
    if job in s'.jobs && x.code == root { BeginFits(w, s', job, u); }
    RedeemFewer(w, s, s', job, x, client, ac, root, u);
    StillBounded(w, s, s', root, u, n);
  }

  lemma BeginFits(w: World, s: State, job: nat, u: nat)
    requires (forall id :: id in w.clients ==> w.clients[id].id == id)
    requires Traced(w, s) && job in s.jobs && s.jobs[job].Issuing? && Fits(w, s, s.jobs[job].g.root, u)
    ensures PerHandler(w, s.jobs[job].g.client) <= u
  {
    assert JobFrom(w, s, s.jobs[job]);
    hide Traced, Fits, PerHandler, GrantFrom, StageFrom;
    GrantFits(w, s, s.jobs[job].g, u);
  }

  lemma RedeemFewer(w: World, s: State, s': State, job: nat, x: Exchange, client: Client, ac: AuthCode, root: string, u: nat)
    requires job in s.jobs && s.jobs[job] == Looked(x, client, ac) && Redeemed(w, s, s', job, x, client, ac)
    requires job in s'.jobs && x.code == root ==> PerHandler(w, client) <= u
    ensures Fewer(w, s, s', root, u)
  {
    hide HashToken, CheckExchange, PerHandler;
  }

  /** The row is gone; the handler that spent it is what is left, and may store more rows than the one. */
  lemma RevokeBounded(w: World, s: State, s': State, job: nat, client: Client, token: string, sess: Session, r: string,
                      root: string, u: nat, n: int)
    requires WellConfigured(w) && Traced(w, s') && Fits(w, s', root, u) && Bounded(w, s, root, u, n) && KeptApart(s)
    requires job in s.jobs && s.jobs[job] == Validated(client, token, sess, r)
    requires RevokedRefresh(w, s, s', job, client, token, sess, r)
    ensures Bounded(w, s', root, u, if r == root then n - 1 + u else n)
  {
    RevokedBegins(w, s, s', job, client, token, sess, r);
    hide PerHandler, Bounded, Fewer, Owes, KeptApart, HashToken, RevokedRefresh, Traced, Fits, JsonRoundTrips, HashInjective, SignaturesMatch;
    if r == root {
      BeginFits(w, s', job, u);
      OwnBounded(w, s, s', job, client, token, sess, root, u, n);
    } else {
      RevokeFewer(w, s, s', job, client, token, sess, r, root, u);
      StillBounded(w, s, s', root, u, n);
    }
  }

  lemma OwnBounded(w: World, s: State, s': State, job: nat, client: Client, token: string, sess: Session, root: string, u: nat, n: int)
    requires HashInjective(w.lib) && KeptApart(s) && job in s.jobs && s.jobs[job] == Validated(client, token, sess, root)
    requires RevokedRefresh(w, s, s', job, client, token, sess, root) && PerHandler(w, client) <= u && Bounded(w, s, root, u, n)
    ensures Bounded(w, s', root, u, n - 1 + u)
  {
    hide PerHandler, Bounded, Owes, KeptApart, HashToken, RevokedRefresh, HashInjective;
    SpentSlots(w, s, s', job, client, token, sess, root, u);
    var row := Slot(OfRow(HashToken(w.lib, token)), 0);
    ExchangedBounded(w, s, s', root, u, n, {row}, Slots(OfJob(job), u));
  }

  lemma RevokedBegins(w: World, s: State, s': State, job: nat, client: Client, token: string, sess: Session, r: string)
    requires RevokedRefresh(w, s, s', job, client, token, sess, r)
    ensures job in s'.jobs && s'.jobs[job].Issuing? && s'.jobs[job].g.client == client && s'.jobs[job].g.root == r
  {
    hide HashToken;
  }

  lemma RevokeFewer(w: World, s: State, s': State, job: nat, client: Client, token: string, sess: Session, r: string, root: string, u: nat)
    requires job in s.jobs && s.jobs[job] == Validated(client, token, sess, r) && r != root
    requires RevokedRefresh(w, s, s', job, client, token, sess, r)
    ensures Fewer(w, s, s', root, u)
  {
    hide HashToken, PerHandler;
  }

  lemma SpentSlots(w: World, s: State, s': State, job: nat, client: Client, token: string, sess: Session, root: string, u: nat)
    requires HashInjective(w.lib) && KeptApart(s) && job in s.jobs && s.jobs[job] == Validated(client, token, sess, root)
    requires RevokedRefresh(w, s, s', job, client, token, sess, root) && PerHandler(w, client) <= u
    ensures Owes(w, s, root, u, Slot(OfRow(HashToken(w.lib, token)), 0))
    ensures forall x :: Owes(w, s', root, u, x) ==>
      x in Slots(OfJob(job), u) || (Owes(w, s, root, u, x) && x != Slot(OfRow(HashToken(w.lib, token)), 0))
  {
    hide HashToken, PerHandler, HashInjective, BeingSpent;
    assert BeingSpent(w, s, root, HashToken(w.lib, token)) by { SpendsIt(w, s, job); }
    forall k | BeingSpent(w, s', root, k) ensures BeingSpent(w, s, root, k) && k != HashToken(w.lib, token) {
      StillSpent(w, s, s', job, client, token, sess, root, k);
    }
  }

  lemma SpendsIt(w: World, s: State, job: nat)
    requires job in s.jobs && s.jobs[job].Validated?
    ensures BeingSpent(w, s, s.jobs[job].root, HashToken(w.lib, s.jobs[job].token))
  {
  }

  /** What is still being spent is another handler's, and another token. */
  lemma StillSpent(w: World, s: State, s': State, job: nat, client: Client, token: string, sess: Session, root: string, k: string)
    requires HashInjective(w.lib) && KeptApart(s) && job in s.jobs && s.jobs[job] == Validated(client, token, sess, root)
    requires RevokedRefresh(w, s, s', job, client, token, sess, root) && BeingSpent(w, s', root, k)
    ensures BeingSpent(w, s, root, k) && k != HashToken(w.lib, token)
  {
    var j :| j in s'.jobs && s'.jobs[j].Validated? && s'.jobs[j].root == root && HashToken(w.lib, s'.jobs[j].token) == k;
    assert j in s.jobs && s.jobs[j] == s'.jobs[j] && j != job;
    if k == HashToken(w.lib, token) { HashTokenInjective(w.lib, s.jobs[j].token, token); }
  }

  /** Storing a row turns one that the handler owes into one that is there; no other stage adds anything. */
  lemma IssueBounded(w: World, s: State, s': State, job: nat, g: Grant, resp: TokenSet, stage: Stage, random: seq<Byte>,
                     root: string, u: nat, n: int)
    requires job in s.jobs && s.jobs[job] == Issuing(g, resp, stage) && Issued(w, s, s', job, g, stage, random)
    requires Bounded(w, s, root, u, n)
    ensures Bounded(w, s', root, u, n)
  {
    OwnStep(w, s, s', g, resp, stage, job, random);
    hide HashToken, Encode, StageOwes, Issued, Bounded, Fewer, Owes;
    if stage.Timed? && g.root == root {
      StoredSlots(w, s, s', job, g, resp, stage, random, u);
      ExchangedBounded(w, s, s', root, u, n, {Slot(OfJob(job), StageOwes(w, g, stage) - 1)}, {Slot(OfRow(HashToken(w.lib, Encode(random))), 0)});
    } else {
      IssueFewer(w, s, s', job, g, resp, stage, random, root, u);
      StillBounded(w, s, s', root, u, n);
    }
  }

  lemma StoredSlots(w: World, s: State, s': State, job: nat, g: Grant, resp: TokenSet, stage: Stage, random: seq<Byte>, u: nat)
    requires job in s.jobs && s.jobs[job] == Issuing(g, resp, stage) && Issued(w, s, s', job, g, stage, random)
    requires stage.Timed? && Outstanding(w, s', job) < Outstanding(w, s, job)
    ensures var last := Slot(OfJob(job), StageOwes(w, g, stage) - 1);
            && Owes(w, s, g.root, u, last)
            && forall x :: Owes(w, s', g.root, u, x) ==> x == Slot(OfRow(HashToken(w.lib, Encode(random))), 0) || (Owes(w, s, g.root, u, x) && x != last)
  {
    hide HashToken, Encode, StageOwes, Follows, MessageOf;
  }

  lemma IssueFewer(w: World, s: State, s': State, job: nat, g: Grant, resp: TokenSet, stage: Stage, random: seq<Byte>, root: string, u: nat)
    requires job in s.jobs && s.jobs[job] == Issuing(g, resp, stage) && Issued(w, s, s', job, g, stage, random)
    requires (stage.Timed? ==> g.root != root) && Outstanding(w, s', job) <= Outstanding(w, s, job)
    ensures Fewer(w, s, s', root, u)
  {
    hide HashToken, Encode, StageOwes, Follows, MessageOf;
  }

  lemma AdvanceBounded(w: World, s: State, job: nat, random: seq<Byte>, saved: bool, root: string, u: nat, n: int)
    requires WellConfigured(w) && Traced(w, AdvanceJob(w, s, job, random)) && Fits(w, AdvanceJob(w, s, job, random), root, u)
    requires Bounded(w, s, root, u, n) && KeptApart(s) && 1 <= u
    ensures Bounded(w, AdvanceJob(w, s, job, random), root, u, n + (u - 1) * SpentNow(s, Advance(job, random, saved), root))
  {
    hide Traced, Bounded, KeptApart, Issue, Redeem, RevokeForRefresh, WellConfigured, Fits;
    if job in s.jobs {
      match s.jobs[job]
      case Looked(x, client, ac) =>
        RedeemEffect(w, s, job, x, client, ac);
        RedeemBounded(w, s, Redeem(w, s, job, x, client, ac), job, x, client, ac, root, u, n);
      case Validated(client, token, sess, r) =>
        RevokeRefreshEffect(w, s, job, client, token, sess, r);
        RevokeBounded(w, s, RevokeForRefresh(w, s, job, client, token, sess, r), job, client, token, sess, r, root, u, n);
      case Issuing(g, resp, stage) =>
        IssueEffect(w, s, job, g, resp, stage, random);
        IssueBounded(w, s, Issue(w, s, job, g, resp, stage, random), job, g, resp, stage, random, root, u, n);
    }
  }

  lemma TakeCodeBounded(w: World, s: State, job: nat, x: Exchange, root: string, u: nat, n: int)
    requires job !in s.jobs && Bounded(w, s, root, u, n)
    ensures Bounded(w, TakeCode(w, s, job, x), root, u, n)
  {
    hide AuthenticateClient, Take, Bounded;
    if AuthenticateClient(w.clients, x.credentials).Some? {
      var client := AuthenticateClient(w.clients, x.credentials).value;
      TakeEffect(s, job, x, client);
      TakeBounded(w, s, Take(s, job, x, client), job, x, client, root, u, n);
    }
  }

  lemma LogInBounded(w: World, s: State, e: Event, root: string, u: nat, n: int)
    requires Traced(w, s) && Once(s) && e.LogIn? && Allowed(w, s, e) && Bounded(w, s, root, u, n) && u <= n
    ensures Bounded(w, InsertCode(w, s, e), root, u, n)
  {
    hide InsertCode, Once, Traced, Bounded, NewAuthCode, Inserted, Encode;
    InsertEffect(w, s, e);
    var s' := InsertCode(w, s, e);
    if s' != s {
      var client, subject :|
        && ValidateAuthRequest(w.clients, e.query) == Ok(client)
        && w.authenticate(e.username, e.password) == Some(subject)
        && s'.now == e.expiryClock
        && Inserted(s, s', Encode(e.random),
                    Login(NewAuthCode(e.query, client, subject, e.authClock, e.expiryClock + w.cfg.authCodeTTL),
                          e.query, e.username, e.password, e.authClock, e.expiryClock));
      InsertBounded(w, s, s', Encode(e.random),
                    Login(NewAuthCode(e.query, client, subject, e.authClock, e.expiryClock + w.cfg.authCodeTTL),
                          e.query, e.username, e.password, e.authClock, e.expiryClock), root, u, n);
    }
  }

  lemma ActBounded(w: World, s: State, e: Event, root: string, u: nat, n: int)
    requires WellConfigured(w) && Invariants(w, s) && Traced(w, Act(w, s, e)) && Fits(w, Act(w, s, e), root, u)
    requires KeptApart(s) && Bounded(w, s, root, u, n) && Bounded(w, Loaded(s), root, u, n) && 1 <= u <= n && Allowed(w, s, e)
    ensures Bounded(w, Act(w, s, e), root, u, n + (u - 1) * SpentNow(s, e, root))
  {
    assert s.jobs.Keys <= s.log.used;
    NothingSpent(s, e, root, u);
    hide InsertCode, TakeCode, CheckRefresh, AdvanceJob, Background, Restarted, Traced, Once, RowsNamed, Bounded, Fits, KeptApart,
      WellConfigured, ClockOk, Loaded, Fewer, CheckedRefresh, OnlyBackground, OnlyRestarts, SpentNow;
    match e
    case LogIn(_, _, _, _, _, _) => LogInBounded(w, s, e, root, u, n);
    case BeginExchange(job, x) => TakeCodeBounded(w, s, job, x, root, u, n);
    case BeginRefresh(job, token, credentials) =>
      var s' := CheckRefresh(w, s, job, token, credentials);
      CheckEffect(w, s, job, token, credentials);
      CheckFewer(w, s, s', job, token, root, u);
      StillBounded(w, s, s', root, u, n);
    case Advance(job, random, saved) => AdvanceBounded(w, s, job, random, saved, root, u, n);
    case Restart(ring) =>
      RestartEffect(s, ring);
      RestartFewer(w, s, Restarted(s, ring), root, u);
      StillBounded(w, Loaded(s), Restarted(s, ring), root, u, n);
    case _ =>
      BackgroundEffect(w, s, e);
      BackgroundFewer(w, s, Background(w, s, e), root, u);
      StillBounded(w, s, Background(w, s, e), root, u, n);
  }

  lemma PersistedFewer(w: World, s: State, root: string, u: nat)
    ensures Fewer(w, s, Persisted(s), root, u)
  {
    hide JobOwes, HashToken;
  }

  lemma ActFits(w: World, s: State, root: string, u: nat)
    requires Fits(w, Persisted(s), root, u)
    ensures Fits(w, s, root, u)
  {
    hide PerHandler;
  }

  /** Only spending a refresh token raises the bound. */
  lemma StepBounded(w: World, s: State, e: Event, root: string, u: nat, n: int)
    requires WellConfigured(w) && Invariants(w, s) && Fits(w, Step(w, s, e), root, u)
    requires KeptApart(s) && Bounded(w, s, root, u, n) && Bounded(w, Loaded(s), root, u, n) && 1 <= u <= n && Allowed(w, s, e)
    ensures Bounded(w, Step(w, s, e), root, u, n + (u - 1) * SpentNow(s, e, root))
  {
    InvariantOnce(w, s);
    hide Act, Step, Saves, Allowed, Traced, Once, RowsNamed, Bounded, Fits, KeptApart, Loaded, Fewer, SpentNow, JsonRoundTrips, HashInjective,
      SignaturesMatch, Persisted;
    StepIs(w, s, e);
    ActTraced(w, s, e);
    assert Fits(w, Act(w, s, e), root, u) by { if Saves(w, s, e) { ActFits(w, Act(w, s, e), root, u); } }
    ActBounded(w, s, e, root, u, n);
    if Saves(w, s, e) {
      PersistedFewer(w, Act(w, s, e), root, u);
      StillBounded(w, Act(w, s, e), Step(w, s, e), root, u, n + (u - 1) * SpentNow(s, e, root));
    }
  }

  lemma NothingSpent(s: State, e: Event, root: string, u: nat)
    ensures !e.Advance? ==> (u - 1) * SpentNow(s, e, root) == 0
  {
  }

  // ---- handlers apart ----

  /** Validating handlers are those of before. */
  ghost predicate NoNewCheck(s: State, s': State) {
    forall j :: j in s'.jobs && s'.jobs[j].Validated? ==> j in s.jobs && s'.jobs[j] == s.jobs[j]
  }

  lemma StillApart(s: State, s': State)
    requires KeptApart(s) && NoNewCheck(s, s')
    ensures KeptApart(s')
  {
  }

  lemma CheckedApart(w: World, s: State, s': State, job: nat, token: string)
    requires KeptApart(s) && CheckedRefresh(w, s, s', job, token)
    requires forall j :: j in s.jobs && s.jobs[j].Validated? ==> s.jobs[j].token != token
    ensures KeptApart(s')
  {
    hide ValidateOpaque, HashToken, RootOf, IsClient;
  }

  lemma AdvanceChecks(w: World, s: State, job: nat, random: seq<Byte>)
    ensures NoNewCheck(s, AdvanceJob(w, s, job, random))
  {
    hide Issue, Redeem, RevokeForRefresh, Encode, Follows, StoredRow, HashToken, CheckExchange;
    if job in s.jobs {
      match s.jobs[job]
      case Looked(x, client, ac) => RedeemEffect(w, s, job, x, client, ac);
      case Validated(client, token, sess, r) => RevokeRefreshEffect(w, s, job, client, token, sess, r);
      case Issuing(g, resp, stage) => IssueEffect(w, s, job, g, resp, stage, random);
    }
  }

  lemma OtherChecks(w: World, s: State, e: Event)
    requires Allowed(w, s, e) && !e.BeginRefresh? && !e.Advance?
    ensures NoNewCheck(s, Act(w, s, e))
  {
    hide InsertCode, TakeCode, Background, NewAuthCode, ValidateAuthRequest, Encode, AuthenticateClient, Take;
    match e
    case LogIn(_, _, _, _, _, _) => InsertEffect(w, s, e);
    case BeginExchange(job, x) => TakeChecks(w, s, job, x);
    case Restart(_) =>
    case _ => BackgroundEffect(w, s, e);
  }

  lemma TakeChecks(w: World, s: State, job: nat, x: Exchange)
    ensures NoNewCheck(s, TakeCode(w, s, job, x))
  {
    hide AuthenticateClient, Take;
    if AuthenticateClient(w.clients, x.credentials).Some? {
      TakeEffect(s, job, x, AuthenticateClient(w.clients, x.credentials).value);
    }
  }

  lemma ActApart(w: World, s: State, e: Event)
    requires KeptApart(s) && Allowed(w, s, e) && Apart(s, e)
    ensures KeptApart(Act(w, s, e))
  {
    hide InsertCode, TakeCode, CheckRefresh, AdvanceJob, Background, Restarted, KeptApart, NoNewCheck, Allowed;
    match e
    case BeginRefresh(job, token, credentials) =>
      CheckEffect(w, s, job, token, credentials);
      CheckedApart(w, s, CheckRefresh(w, s, job, token, credentials), job, token);
    case Advance(job, random, _) =>
      AdvanceChecks(w, s, job, random);
      StillApart(s, AdvanceJob(w, s, job, random));
    case _ =>
      OtherChecks(w, s, e);
      StillApart(s, Act(w, s, e));
  }

  lemma StepApart(w: World, s: State, e: Event)
    requires KeptApart(s) && Allowed(w, s, e) && Apart(s, e)
    ensures KeptApart(Step(w, s, e))
  {
    StepIs(w, s, e);
    ActApart(w, s, e);
    hide Act, Step, Saves, KeptApart, Apart, Allowed;
    if Saves(w, s, e) { StillApart(Act(w, s, e), Step(w, s, e)); }
  }

  // ---- the disk ----

  lemma DiskRootStays(w: World, s: State, s': State, k: string)
    requires RowsNamed(w, s) && OriginsStay(w, s, s') && k in s.disk
    ensures RootOf(s', k) == RootOf(s, k)
  {
    assert RowNamed(w, s, k);
    hide HashToken;
    assert s.log.origins[k].token in s.log.seen;
  }

  lemma OldDiskFewer(w: World, s: State, s': State, root: string, u: nat)
    requires RowsNamed(w, s) && OriginsStay(w, s, s') && s'.disk == s.disk
    ensures Fewer(w, Loaded(s), Loaded(s'), root, u)
  {
    hide RootOf, RowsNamed, OriginsStay, HashToken;
    forall k | k in s.disk ensures RootOf(Loaded(s'), k) == RootOf(Loaded(s), k) {
      DiskRootStays(w, s, s', k);
      LoadedRoot(s, k);
      LoadedRoot(s', k);
    }
  }

  lemma LoadedRoot(s: State, k: string)
    ensures RootOf(Loaded(s), k) == RootOf(s, k)
  {
  }

  lemma SavedFewer(w: World, s: State, root: string, u: nat)
    requires s.disk == s.table
    ensures Fewer(w, s, Loaded(s), root, u)
  {
    hide RootOf, HashToken;
    forall k | k in s.disk ensures RootOf(Loaded(s), k) == RootOf(s, k) { LoadedRoot(s, k); }
  }

  lemma MoreBounded(w: World, s: State, root: string, u: nat, n: int, m: int)
    requires Bounded(w, s, root, u, n) && n <= m
    ensures Bounded(w, s, root, u, m)
  {
    hide Covers;
  }

  lemma StepDiskBounded(w: World, s: State, e: Event, root: string, u: nat, n: int, m: int)
    requires HashInjective(w.lib) && Invariants(w, s) && Allowed(w, s, e) && n <= m
    requires Bounded(w, Loaded(s), root, u, n) && Bounded(w, Step(w, s, e), root, u, m)
    ensures Bounded(w, Loaded(Step(w, s, e)), root, u, m)
  {
    var s' := Step(w, s, e);
    hide HashInjective, Traced, Once, RowsNamed, RecordGrows, OriginsStay, Step, Saves, AfterOp, Allowed, Bounded, Loaded, Fewer;
    StepStays(w, s, e);
    if e.Restart? {
      RestartKeepsDisk(w, s, e);
    } else {
      StepTable(w, s, e);
    }
    if s'.disk == s.disk {
      OldDiskFewer(w, s, s', root, u);
      MoreBounded(w, Loaded(s), root, u, n, m);
      StillBounded(w, Loaded(s), Loaded(s'), root, u, m);
    } else {
      SavedFewer(w, s', root, u);
      StillBounded(w, s', Loaded(s'), root, u, m);
    }
  }

  lemma RestartKeepsDisk(w: World, s: State, e: Event)
    requires e.Restart?
    ensures Step(w, s, e).disk == s.disk
  {
  }

  // ---- runs ----

  lemma FitBefore(w: World, s: State, s': State, root: string, u: nat)
    requires RecordGrows(s, s') && Fits(w, s', root, u)
    ensures Fits(w, s, root, u)
  {
  }

  lemma {:induction false} RunFits(w: World, s: State, es: seq<Event>, root: string, u: nat)
    requires WellConfigured(w) && Invariants(w, s) && AllowedRun(w, s, es) && Fits(w, Run(w, s, es), root, u)
    ensures Fits(w, s, root, u)
    decreases |es|
  {
    hide Invariants, Step, Allowed, Fits, RecordGrows, OriginsStay, JsonRoundTrips, HashInjective, SignaturesMatch;
    if es != [] {
      StepKept(w, s, es[0]);
      RunFits(w, Step(w, s, es[0]), es[1..], root, u);
      assert Once(s) by { InvariantOnce(w, s); }
      StepStays(w, s, es[0]);
      FitBefore(w, s, Step(w, s, es[0]), root, u);
    }
  }

  lemma InvariantOnce(w: World, s: State)
    requires Invariants(w, s)
    ensures Once(s) && Traced(w, s)
  {
    hide Once, Traced;
  }

  /** Bounded in the table and on the disk. */
  ghost predicate BothBounded(w: World, s: State, root: string, u: nat, n: int) {
    Bounded(w, s, root, u, n) && Bounded(w, Loaded(s), root, u, n)
  }

  lemma StepBothBounded(w: World, s: State, e: Event, root: string, u: nat, n: int)
    requires WellConfigured(w) && Invariants(w, s) && Fits(w, Step(w, s, e), root, u)
    requires KeptApart(s) && BothBounded(w, s, root, u, n) && 1 <= u <= n && Allowed(w, s, e)
    ensures BothBounded(w, Step(w, s, e), root, u, n + (u - 1) * SpentNow(s, e, root))
  {
    hide Invariants, Step, Allowed, Fits, KeptApart, Bounded, JsonRoundTrips, SignaturesMatch, HashInjective;
    StepKept(w, s, e);
    InvariantOnce(w, Step(w, s, e));
    StepBounded(w, s, e, root, u, n);
    StepDiskBounded(w, s, e, root, u, n, n + (u - 1) * SpentNow(s, e, root));
  }

  lemma {:induction false} RunBounded(w: World, s: State, es: seq<Event>, root: string, u: nat, n: int)
    requires WellConfigured(w) && Invariants(w, s) && Fits(w, Run(w, s, es), root, u)
    requires KeptApart(s) && BothBounded(w, s, root, u, n) && 1 <= u <= n
    requires AllowedRun(w, s, es) && ApartRun(w, s, es)
    ensures Bounded(w, Run(w, s, es), root, u, n + (u - 1) * Refreshes(w, s, es, root))
    decreases |es|
  {
    hide Invariants, Step, Allowed, Apart, Fits, KeptApart, Bounded, Loaded, WellConfigured, SpentNow;
    if es != [] {
      var s1 := Step(w, s, es[0]);
      StepKept(w, s, es[0]);
      RunFits(w, s1, es[1..], root, u);
      StepBothBounded(w, s, es[0], root, u, n);
      StepApart(w, s, es[0]);
      Distributes(u - 1, SpentNow(s, es[0], root), Refreshes(w, s1, es[1..], root));
      RunBounded(w, s1, es[1..], root, u, n + (u - 1) * SpentNow(s, es[0], root));
    }
  }

  lemma Distributes(a: nat, b: nat, c: nat)
    ensures a * (b + c) == a * b + a * c && 0 <= a * b
  {
  }

  lemma StartBounded(w: World, s0: State, root: string, u: nat)
    requires Init(w, s0)
    ensures KeptApart(s0) && BothBounded(w, s0, root, u, u)
  {
    hide ClockOk, JobOwes;
    assert Covers(w, s0, root, u, {}) && Covers(w, Loaded(s0), root, u, {});
  }

  /** What one login of a client can have in rows after this many refreshes. */
  function RowBound(w: World, c: Client, refreshes: nat): nat {
    if ModeFor(w.cfg, c) == Stateful then 2 + refreshes else 1
  }

  /**
   In every run that keeps refresh handlers of the same token apart, restarts from however old a
   snapshot included, a login has at most one row at any time, or, for a client with stateful access
   tokens, two and one more for each time one of its tokens was spent on a refresh.
   */
  lemma RowsOfLogin(w: World, s0: State, es: seq<Event>, root: string, keys: set<string>)
    requires WellConfigured(w) && Init(w, s0) && AllowedRun(w, s0, es) && ApartRun(w, s0, es)
    requires root in Run(w, s0, es).log.logins && Run(w, s0, es).log.logins[root].code.clientID in w.clients
    requires forall k :: k in keys ==> k in Run(w, s0, es).table && RootOf(Run(w, s0, es), k) == root
    ensures |keys| <= RowBound(w, w.clients[Run(w, s0, es).log.logins[root].code.clientID], Refreshes(w, s0, es, root))
  {
    var s' := Run(w, s0, es);
    var u := PerHandler(w, w.clients[s'.log.logins[root].code.clientID]);
    LoginBounded(w, s0, es, root);
    hide Run, RootOf, AllowedRun, ApartRun, Refreshes, Init, WellConfigured, Bounded, PerHandler, RowBound, Step, Allowed;
    BoundIs(w, w.clients[s'.log.logins[root].code.clientID], Refreshes(w, s0, es, root));
    CountBounded(w, s', root, u, u + (u - 1) * Refreshes(w, s0, es, root), keys);
  }

  lemma BoundIs(w: World, c: Client, refreshes: nat)
    ensures PerHandler(w, c) + (PerHandler(w, c) - 1) * refreshes == RowBound(w, c, refreshes)
  {
    hide ModeFor;
  }

  lemma CountBounded(w: World, s: State, root: string, u: nat, n: int, keys: set<string>)
    requires Bounded(w, s, root, u, n) && forall k :: k in keys ==> k in s.table && RootOf(s, k) == root
    ensures |keys| <= n
  {
    hide RootOf;
    var c :| Covers(w, s, root, u, c) && |c| <= n;
    forall k | k in keys ensures Slot(OfRow(k), 0) in c { assert Owes(w, s, root, u, Slot(OfRow(k), 0)); }
    KeysFit(keys, c);
  }

  lemma LoginBounded(w: World, s0: State, es: seq<Event>, root: string)
    requires WellConfigured(w) && Init(w, s0) && AllowedRun(w, s0, es) && ApartRun(w, s0, es)
    requires root in Run(w, s0, es).log.logins && Run(w, s0, es).log.logins[root].code.clientID in w.clients
    ensures var u := PerHandler(w, w.clients[Run(w, s0, es).log.logins[root].code.clientID]);
            Bounded(w, Run(w, s0, es), root, u, u + (u - 1) * Refreshes(w, s0, es, root))
  {
    var u := PerHandler(w, w.clients[Run(w, s0, es).log.logins[root].code.clientID]);
    assert 1 <= u && Fits(w, Run(w, s0, es), root, u);
    StartBounded(w, s0, root, u);
    InitKept(w, s0);
    hide WellConfigured, Init, Invariants, KeptApart, BothBounded, Bounded, Fits, PerHandler, Run, AllowedRun, ApartRun, Refreshes;
    RunBounded(w, s0, es, root, u, u);
  }

  /** With stateless access tokens, then, a login has one row at most; while its code is unspent it has none. */
  lemma AtMostOneRow(w: World, s0: State, es: seq<Event>, root: string, a: string, b: string)
    requires WellConfigured(w) && Init(w, s0) && AllowedRun(w, s0, es) && ApartRun(w, s0, es)
    requires root in Run(w, s0, es).log.logins && Run(w, s0, es).log.logins[root].code.clientID in w.clients
    requires ModeFor(w.cfg, w.clients[Run(w, s0, es).log.logins[root].code.clientID]) == Stateless
    requires a in Run(w, s0, es).table && RootOf(Run(w, s0, es), a) == root
    ensures b in Run(w, s0, es).table && RootOf(Run(w, s0, es), b) == root ==> a == b
    ensures root !in Run(w, s0, es).codes
  {
    var s' := Run(w, s0, es);
    LoginBounded(w, s0, es, root);
    var c :| Covers(w, s', root, 1, c) && |c| <= 1;
    hide Run, RootOf, ModeFor, AllowedRun, ApartRun, Refreshes, Init, WellConfigured;
    assert Owes(w, s', root, 1, Slot(OfRow(a), 0));
    if b in s'.table && RootOf(s', b) == root && a != b {
      assert Owes(w, s', root, 1, Slot(OfRow(b), 0));
      Inside({Slot(OfRow(a), 0), Slot(OfRow(b), 0)}, c);
    }
    if root in s'.codes {
      assert Owes(w, s', root, 1, Slot(OfCode, 0));
      Inside({Slot(OfRow(a), 0), Slot(OfCode, 0)}, c);
    }
  }

  // ---- one refresh ----

  /** The row a step stores for a handler, if it is one that stores a row. */
  function StoredNow(w: World, s: State, e: Event, job: nat): seq<Row> {
    if e.Advance? && e.job == job && job in s.jobs && s.jobs[job].Issuing? && s.jobs[job].stage.Timed? then
      var st, token := s.jobs[job].stage, Encode(e.random);
      [Row(OpaqueSession(w.lib, GrantSession(s.jobs[job].g), token, st.at, st.ttl), s.now)]
    else []
  }

  /** The rows a handler stores in the course of a run. */
  function StoredRows(w: World, s: State, es: seq<Event>, job: nat): seq<Row>
    decreases |es|
  {
    if es == [] then [] else StoredNow(w, s, es[0], job) + StoredRows(w, Step(w, s, es[0]), es[1..], job)
  }

  function Outstanding(w: World, s: State, job: nat): nat {
    if job in s.jobs && s.jobs[job].Issuing? then StageOwes(w, s.jobs[job].g, s.jobs[job].stage) else 0
  }

  /** The handler, while it runs, is issuing for this grant; its number is not given out again. */
  ghost predicate IssuesFor(s: State, job: nat, g: Grant) {
    job in s.log.used && (job in s.jobs ==> s.jobs[job].Issuing? && s.jobs[job].g == g)
  }

  /** Other handlers' steps and background steps leave a handler alone or drop it. */
  ghost predicate LeavesAlone(s: State, s': State, job: nat) {
    job in s'.log.used && (job in s'.jobs ==> job in s.jobs && s'.jobs[job] == s.jobs[job])
  }

  lemma AdvanceLeavesAlone(w: World, s: State, other: nat, random: seq<Byte>, job: nat)
    requires job in s.log.used && other != job
    ensures LeavesAlone(s, AdvanceJob(w, s, other, random), job)
  {
    hide Issue, Redeem, RevokeForRefresh, Encode, StoredRow, Follows;
    if other in s.jobs {
      match s.jobs[other]
      case Looked(x, client, ac) => RedeemEffect(w, s, other, x, client, ac);
      case Validated(client, token, sess, root) => RevokeRefreshEffect(w, s, other, client, token, sess, root);
      case Issuing(g, resp, stage) => IssueEffect(w, s, other, g, resp, stage, random);
    }
  }

  lemma TakeLeavesAlone(w: World, s: State, other: nat, x: Exchange, job: nat)
    requires job in s.log.used && other != job
    ensures LeavesAlone(s, TakeCode(w, s, other, x), job)
  {
    hide AuthenticateClient, Take;
    if AuthenticateClient(w.clients, x.credentials).Some? {
      TakeEffect(s, other, x, AuthenticateClient(w.clients, x.credentials).value);
    }
  }

  lemma LogInLeavesAlone(w: World, s: State, e: Event, job: nat)
    requires e.LogIn? && Allowed(w, s, e) && job in s.log.used
    ensures LeavesAlone(s, InsertCode(w, s, e), job)
  {
    InsertEffect(w, s, e);
    hide InsertCode, NewAuthCode, ValidateAuthRequest, Encode;
  }

  lemma ActLeavesAlone(w: World, s: State, e: Event, job: nat)
    requires Allowed(w, s, e) && job in s.log.used && !(e.Advance? && e.job == job)
    ensures LeavesAlone(s, Act(w, s, e), job)
  {
    hide InsertCode, TakeCode, CheckRefresh, AdvanceJob, Background, Encode;
    match e
    case LogIn(_, _, _, _, _, _) => LogInLeavesAlone(w, s, e, job);
    case BeginExchange(other, x) => TakeLeavesAlone(w, s, other, x, job);
    case BeginRefresh(other, token, credentials) => CheckEffect(w, s, other, token, credentials);
    case Advance(other, random, _) => AdvanceLeavesAlone(w, s, other, random, job);
    case Restart(_) =>
    case _ => BackgroundEffect(w, s, e);
  }

  lemma StepLeavesAlone(w: World, s: State, e: Event, job: nat)
    requires Allowed(w, s, e) && job in s.log.used && !(e.Advance? && e.job == job)
    ensures LeavesAlone(s, Step(w, s, e), job)
  {
    StepIs(w, s, e);
    ActLeavesAlone(w, s, e, job);
    hide Act, Step, Saves;
  }

  lemma OwnStep(w: World, s: State, s': State, g: Grant, resp: TokenSet, stage: Stage, job: nat, random: seq<Byte>)
    requires job in s.jobs && s.jobs[job] == Issuing(g, resp, stage) && Issued(w, s, s', job, g, stage, random)
    ensures job in s.log.used ==> IssuesFor(s', job, g)
    ensures (if stage.Timed? then 1 else 0) + Outstanding(w, s', job) <= Outstanding(w, s, job)
  {
    hide StoredRow, SameRows, MessageOf, Encode, AccessDraft, IdDraft, ModeFor;
  }

  lemma OwnAct(w: World, s: State, random: seq<Byte>, saved: bool, job: nat, g: Grant)
    requires IssuesFor(s, job, g)
    ensures var s' := Act(w, s, Advance(job, random, saved));
            && IssuesFor(s', job, g)
            && (if job in s.jobs && s.jobs[job].stage.Timed? then 1 else 0) + Outstanding(w, s', job) <= Outstanding(w, s, job)
  {
    Advances(w, s, job, random, saved);
    hide Act, Issue, Encode, Issued, StageOwes;
    if job in s.jobs {
      var resp, stage := s.jobs[job].resp, s.jobs[job].stage;
      IssueEffect(w, s, job, g, resp, stage, random);
      OwnStep(w, s, Issue(w, s, job, g, resp, stage, random), g, resp, stage, job, random);
    }
  }

  lemma StepOwes(w: World, s: State, e: Event, job: nat, g: Grant)
    requires Allowed(w, s, e) && IssuesFor(s, job, g)
    ensures IssuesFor(Step(w, s, e), job, g)
    ensures |StoredNow(w, s, e, job)| + Outstanding(w, Step(w, s, e), job) <= Outstanding(w, s, job)
    ensures forall row :: row in StoredNow(w, s, e, job) ==>
      row.session.subject == g.subject && row.session.clientID == g.client.id && row.session.scope == g.scope
  {
    hide Act, Step, Saves, Encode, Allowed, StageOwes;
    if e.Advance? && e.job == job {
      StepIs(w, s, e);
      OwnAct(w, s, e.random, e.saved, job, g);
    } else {
      StepLeavesAlone(w, s, e, job);
    }
  }

  lemma {:induction false} RowsOfHandler(w: World, s: State, es: seq<Event>, job: nat, g: Grant)
    requires AllowedRun(w, s, es) && IssuesFor(s, job, g)
    ensures |StoredRows(w, s, es, job)| <= Outstanding(w, s, job)
    ensures forall row :: row in StoredRows(w, s, es, job) ==>
      row.session.subject == g.subject && row.session.clientID == g.client.id && row.session.scope == g.scope
    decreases |es|
  {
    hide Step, Allowed, StoredNow, Outstanding, IssuesFor;
    if es != [] {
      StepOwes(w, s, es[0], job, g);
      RowsOfHandler(w, Step(w, s, es[0]), es[1..], job, g);
    }
  }

  lemma SpentThenStored(w: World, s: State, job: nat, random: seq<Byte>, saved: bool, es: seq<Event>, v: Job)
    requires job in s.jobs && s.jobs[job] == v && v.Validated? && job in s.log.used && v.sess.clientID == v.client.id
    requires AllowedRun(w, Step(w, s, Advance(job, random, saved)), es)
    ensures var s1 := Step(w, s, Advance(job, random, saved));
            && s1.table == s.table - {HashToken(w.lib, v.token)}
            && |StoredRows(w, s1, es, job)| <= (if ModeFor(w.cfg, v.client) == Stateful then 2 else 1)
            && (forall row :: row in StoredRows(w, s1, es, job) ==>
                  row.session.subject == v.sess.subject && row.session.clientID == v.sess.clientID
                  && row.session.scope == v.sess.scope)
  {
    var s1 := Step(w, s, Advance(job, random, saved));
    StepIs(w, s, Advance(job, random, saved));
    SpendEffect(w, s, job, random, saved, v);
    var g := s1.jobs[job].g;
    hide Act, Saves, Step, HashToken, ModeFor, AllowedRun, StoredRows;
    RowsOfHandler(w, s1, es, job, g);
  }

  lemma SpendEffect(w: World, s: State, job: nat, random: seq<Byte>, saved: bool, v: Job)
    requires job in s.jobs && s.jobs[job] == v && v.Validated?
    ensures RevokedRefresh(w, s, Act(w, s, Advance(job, random, saved)), job, v.client, v.token, v.sess, v.root)
  {
    Advances(w, s, job, random, saved);
    hide Act, HashToken, Begin, RevokeForRefresh;
    RevokeRefreshEffect(w, s, job, v.client, v.token, v.sess, v.root);
  }

  lemma ValidatedJob(w: World, s: State, job: nat)
    requires Traced(w, s) && Once(s) && job in s.jobs && s.jobs[job].Validated?
    ensures job in s.log.used && s.jobs[job].sess.clientID == s.jobs[job].client.id
  {
    hide InRange, Descends, IsClient, ClockOk, LoginOk, RedeemedOk, CodeFrom, RowFrom, MintedFrom, OwnsItsCode, TakenBy, RedeemedBy;
    assert JobFrom(w, s, s.jobs[job]);
  }

  /**
   A refresh removes exactly the presented row, and over the rest of any run its handler adds at
   most one row, a stateful client's at most two, each with the presented row's subject, client
   and scope.
   */
  lemma RefreshConserves(w: World, s: State, job: nat, random: seq<Byte>, saved: bool, es: seq<Event>)
    requires WellConfigured(w) && Reachable(w, s) && job in s.jobs && s.jobs[job].Validated?
    requires AllowedRun(w, Step(w, s, Advance(job, random, saved)), es)
    ensures var v := s.jobs[job];
            var s1 := Step(w, s, Advance(job, random, saved));
            && s1.table == s.table - {HashToken(w.lib, v.token)}
            && |StoredRows(w, s1, es, job)| <= (if ModeFor(w.cfg, v.client) == Stateful then 2 else 1)
            && (forall row :: row in StoredRows(w, s1, es, job) ==>
                  row.session.subject == v.sess.subject && row.session.clientID == v.sess.clientID
                  && row.session.scope == v.sess.scope)
  {
    ReachableKept(w, s);
    ValidatedJob(w, s, job);
    hide Traced, Once, WellConfigured, Reachable, Step, HashToken, ModeFor, AllowedRun, StoredRows;
    SpentThenStored(w, s, job, random, saved, es, s.jobs[job]);
  }

  // ---- which rows a refresh accepts ----

  /**
   A refresh request goes on exactly if its client authenticates and the token's row is live and that
   client's; what kind of token the row was stored for is not asked.
   */
  lemma RefreshAccepts(w: World, s: State, job: nat, token: string, credentials: Credentials)
    requires job !in s.jobs
    ensures var s' := Step(w, s, BeginRefresh(job, token, credentials));
            var key, client := HashToken(w.lib, token), AuthenticateClient(w.clients, credentials);
            && (job in s'.jobs <==>
                  token != "" && client.Some? && key in s.table && !Expired(s.table[key].session, s.now)
                  && s.table[key].session.clientID == client.value.id)
            && (job in s'.jobs ==> s'.jobs[job] == Validated(client.value, token, s.table[key].session, RootOf(s, key)))
  {
    hide AuthenticateClient, HashToken, RootOf, InsertCode, TakeCode, AdvanceJob, Background, Restarted;
    if AuthenticateClient(w.clients, credentials).Some? {
      EntersIff(w, s, job, token, credentials, AuthenticateClient(w.clients, credentials).value);
    }
    hide EnterRefresh;
  }

  lemma EntersIff(w: World, s: State, job: nat, token: string, credentials: Credentials, client: Client)
    requires job !in s.jobs
    ensures var s' := EnterRefresh(w, s, job, token, credentials, client);
            var key := HashToken(w.lib, token);
            && (job in s'.jobs <==>
                  key in s.table && !Expired(s.table[key].session, s.now) && s.table[key].session.clientID == client.id)
            && (job in s'.jobs ==> s'.jobs[job] == Validated(client, token, s.table[key].session, RootOf(s, key)))
  {
    hide HashToken, RootOf;
  }

  /** So the access token of a stateful client, just minted, can be presented as a refresh token, and is spent like one. */
  lemma AccessTokenRefreshes(w: World, s: State, job: nat, g: Grant, resp: TokenSet, random: seq<Byte>, saved: bool, other: nat)
    requires WellConfigured(w) && Reachable(w, s)
    requires job in s.jobs && s.jobs[job] == Issuing(g, resp, Timed(s.now, w.cfg.statefulTTL, false)) && w.cfg.statefulTTL >= 0
    requires Allowed(w, s, Advance(job, random, saved)) && other !in s.log.used && Encode(random) != ""
    ensures var minted := Step(w, s, Advance(job, random, saved));
            var token, credentials := Encode(random), Credentials(g.client.id, g.client.secret, None);
            var s' := Step(w, minted, BeginRefresh(other, token, credentials));
            && job in minted.jobs && minted.jobs[job].Issuing? && minted.jobs[job].resp.access == token
            && other in s'.jobs && s'.jobs[other].Validated? && s'.jobs[other].token == token && s'.jobs[other].root == g.root
  {
    ReachableKept(w, s);
    var client := RegisteredClient(w, s, job);
    UsedJobs(w, s, other);
    var minted := Step(w, s, Advance(job, random, saved));
    MintedRow(w, s, job, g, resp, random, saved, other);
    hide Step, Invariants, Reachable, WellConfigured, Allowed, Encode, HashToken, RootOf;
    RefreshAccepts(w, minted, other, Encode(random), Credentials(g.client.id, g.client.secret, None));
  }

  lemma RegisteredClient(w: World, s: State, job: nat) returns (client: Client)
    requires (forall id :: id in w.clients ==> w.clients[id].id == id)
    requires Invariants(w, s) && job in s.jobs && s.jobs[job].Issuing?
    ensures client == s.jobs[job].g.client && client.id in w.clients && w.clients[client.id] == client
    ensures AuthenticateClient(w.clients, Credentials(client.id, client.secret, None)) == Some(client)
  {
    hide Invariants, Descends, StageFrom, AuthenticateClient, InRange;
    client := s.jobs[job].g.client;
    TracedJob(w, s, job);
    Authenticates(w.clients, client);
  }

  /** A registered client's own id and secret authenticate it. */
  lemma Authenticates(clients: Registry, client: Client)
    requires client.id in clients && clients[client.id] == client
    ensures AuthenticateClient(clients, Credentials(client.id, client.secret, None)) == Some(client)
  {
  }

  lemma TracedJob(w: World, s: State, job: nat)
    requires Invariants(w, s) && job in s.jobs
    ensures JobFrom(w, s, s.jobs[job])
  {
    hide JobFrom, LoginOk, RedeemedOk, CodeFrom, RowFrom, MintedFrom, Once, RowsNamed;
  }

  lemma UsedJobs(w: World, s: State, other: nat)
    requires Invariants(w, s) && other !in s.log.used
    ensures other !in s.jobs
  {
    hide Traced, RowsNamed, OwnsItsCode;
  }

  lemma MintedRow(w: World, s: State, job: nat, g: Grant, resp: TokenSet, random: seq<Byte>, saved: bool, other: nat)
    requires job in s.jobs && s.jobs[job] == Issuing(g, resp, Timed(s.now, w.cfg.statefulTTL, false)) && other !in s.jobs
    ensures var s' := Step(w, s, Advance(job, random, saved));
            var key := HashToken(w.lib, Encode(random));
            && s'.now == s.now && other !in s'.jobs && key in s'.table && RootOf(s', key) == g.root
            && s'.table[key].session.clientID == g.client.id && s'.table[key].session.expiresAt == s.now + w.cfg.statefulTTL
            && job in s'.jobs && s'.jobs[job].Issuing? && s'.jobs[job].resp.access == Encode(random)
  {
    StepIs(w, s, Advance(job, random, saved));
    AdvanceIssues(w, s, job, g, resp, Timed(s.now, w.cfg.statefulTTL, false), random, saved);
    hide Act, Step, Saves, Encode, HashToken, FirstSixteen, ModeFor, AccessTTL, ExpiresIn;
  }
}
