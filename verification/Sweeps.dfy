/**
 What cleanup can change across restarts. A sweep, its own snapshot saved or not, shows in no run that
 saves the snapshots due exactly if it drops nothing or table and disk had the same live rows; honest
 requests reach states where they do not, in both ways they can differ. And one failed snapshot is
 enough to make a sweep show: the row it dropped would have carried the next snapshot.
 */
module Sweeps {
  import opened Wrappers
  import opened Clock
  import opened Base64Url
  import opened Primitives
  import opened Jwt
  import opened KeyRing
  import opened Sessions
  import opened Stores
  import opened Grants
  import opened Sidecar
  import opened SingleUse
  import opened OpaqueTokens
  import opened Provenance
  import opened Cleanup
  import opened HandlerRuns
  import opened HonestFlow

  // ---- one sweep ----

  /** The environment can continue so, and every snapshot that is due succeeds. */
  ghost predicate SavesOn(w: World, s: State, es: seq<Event>) {
    AllowedRun(w, s, es) && DueSaved(w, s, es)
  }

  /** A sweep now shows in no continuation that saves its snapshots, with the sweep and without. */
  ghost predicate SweepHidden(w: World, s: State, asOf: Time, saved: bool) {
    var swept := Step(w, s, SweepRows(asOf, saved));
    forall es :: SavesOn(w, s, es) && SavesOn(w, swept, es) ==> LooksSame(w, Run(w, swept, es), Run(w, s, es))
  }

  /** The sweep drops the expired rows, and takes a snapshot if there are any. */
  lemma SweepIs(w: World, s: State, asOf: Time, saved: bool)
    ensures var swept := Step(w, s, SweepRows(asOf, saved));
            && swept == s.(table := swept.table, disk := swept.disk) && swept.table == Next(s.table, Sweep(asOf))
            && swept.disk == (if saved && ExpiredKeys(s.table, asOf) != {} then swept.table else s.disk)
            && ExpiredKeys(swept.table, asOf) == {}
  {
    var e := SweepRows(asOf, saved);
    StepIs(w, s, e);
    assert Act(w, s, e) == SweepTable(s, asOf) by { hide SweepTable; }
    assert Saves(w, s, e) <==> saved && ExpiredKeys(s.table, asOf) != {};
    hide Act, Step, Saves;
    assert ExpiredKeys(Next(s.table, Sweep(asOf)), asOf) == {};
  }

  lemma NothingToSweep(w: World, s: State, asOf: Time, saved: bool)
    requires ExpiredKeys(s.table, asOf) == {}
    ensures Step(w, s, SweepRows(asOf, saved)) == s
  {
    SweepIs(w, s, asOf, saved);
    hide Step;
    assert Next(s.table, Sweep(asOf)) == s.table;
  }

  lemma SweptSettled(w: World, s: State, asOf: Time, saved: bool)
    requires Settled(s) && asOf <= s.now
    ensures Settled(Step(w, s, SweepRows(asOf, saved)))
  {
    SweepIs(w, s, asOf, saved);
    var swept := Step(w, s, SweepRows(asOf, saved));
    hide Step, RowsMatch, Next, ExpiredKeys;
    SweptMatches(s.now, s.table, s.disk, asOf);
    SelfMatches(s.now, swept.table);
  }

  lemma LooksItself(w: World, s: State)
    ensures LooksSame(w, s, s)
  {
    hide ValidateAny, Signatures;
  }

  lemma HiddenIf(w: World, s: State, asOf: Time, saved: bool)
    requires Once(s) && asOf <= s.now && (ExpiredKeys(s.table, asOf) == {} || Settled(s))
    ensures SweepHidden(w, s, asOf, saved)
  {
    var e := SweepRows(asOf, saved);
    var swept := Step(w, s, e);
    hide Step, Run, AllowedRun, DueSaved, Once, Match, Settled, LooksSame, ExpiredKeys;
    forall es | SavesOn(w, s, es) && SavesOn(w, swept, es) ensures LooksSame(w, Run(w, swept, es), Run(w, s, es)) {
      if ExpiredKeys(s.table, asOf) == {} {
        NothingToSweep(w, s, asOf, saved);
        LooksItself(w, Run(w, s, es));
      } else {
        SettledHides(w, s, asOf, saved, es);
      }
    }
  }

  lemma SettledHides(w: World, s: State, asOf: Time, saved: bool, es: seq<Event>)
    requires Once(s) && asOf <= s.now && Settled(s)
    requires SavesOn(w, s, es) && SavesOn(w, Step(w, s, SweepRows(asOf, saved)), es)
    ensures LooksSame(w, Run(w, Step(w, s, SweepRows(asOf, saved)), es), Run(w, s, es))
  {
    var e := SweepRows(asOf, saved);
    var swept := Step(w, s, e);
    assert Allowed(w, s, e);
    SelfMatches(s.now, s.table);
    assert Match(s, s) by { hide RowsMatch; }
    hide Step, Run, AllowedRun, DueSaved, Once, Match, Settled, LooksSame, Allowed, SettledRestarts;
    JobsUsed(s);
    StepMatches(w, s, s, e);
    assert LazyStep(w, s, e) == s by { SkipsCleanup(w, s, e); }
    StepOnce(w, s, e);
    SweptSettled(w, s, asOf, saved);
    SavedIsSettled(w, s, es);
    SavedIsSettled(w, swept, es);
    RunMatches(w, s, s, es);
    RunMatches(w, swept, s, es);
    MatchLooksSame(w, Run(w, s, es), LazyRun(w, s, es));
    MatchLooksSame(w, Run(w, swept, es), LazyRun(w, s, es));
    BothLookSame(w, Run(w, swept, es), LazyRun(w, s, es), Run(w, s, es));
  }

  /** Right after a restart only opaque tokens validate, and they do as the disk says. */
  lemma AfterRestart(w: World, s: State, ring: Ring, token: string)
    requires FreshRing(ring)
    ensures var s' := Run(w, s, [Restart(ring)]);
            && s'.now == s.now
            && ValidateAny(w.lib, Signatures(s'), s'.table, s'.ring, token, s.now)
               == (match ValidateOpaque(w.lib, s.disk, token, s.now) case Some(sess) => Some((sess, Stateful)) case None => None)
  {
    var e := Restart(ring);
    RestartEffect(s, ring);
    assert Step(w, s, e) == Restarted(s, ring) by { hide Restarted; }
    assert [e][1..] == [];
    assert Run(w, s, [e]) == Run(w, Step(w, s, e), []) == Step(w, s, e) by { hide Step; }
    hide Restarted, Step, Run, PeekKid, Find, SplitToken, Lookup, HashToken, FreshRing;
  }

  lemma SomeRing() returns (ring: Ring)
    ensures FreshRing(ring)
  {
    ring := Ring(Key(RS256, 1, 0, 0, KeyPair(0)), [], 1);
  }

  lemma RestartSaves(w: World, s: State, ring: Ring)
    requires FreshRing(ring)
    ensures SavesOn(w, s, [Restart(ring)])
  {
    var e := Restart(ring);
    hide Step, FreshRing;
    assert [e][1..] == [];
    assert AllowedRun(w, Step(w, s, e), []) && DueSaved(w, Step(w, s, e), []);
    assert Allowed(w, s, e) && !SnapshotDue(w, s, e);
  }

  lemma SweepRestart(w: World, s: State, asOf: Time, ring: Ring)
    requires FreshRing(ring) && asOf <= s.now
    ensures var es := [SweepRows(asOf, true), Restart(ring)];
            SavesOn(w, s, es) && Run(w, s, es) == Run(w, Step(w, s, SweepRows(asOf, true)), [Restart(ring)])
  {
    var e := SweepRows(asOf, true);
    RestartSaves(w, Step(w, s, e), ring);
    assert Allowed(w, s, e) && SnapshotSucceeds(e);
    hide Step, FreshRing, Allowed, SnapshotDue;
    assert [e, Restart(ring)][1..] == [Restart(ring)];
  }

  /** What looks the same after a restart was the same on the disk. */
  lemma SameOnDisk(w: World, a: State, b: State, ring: Ring, token: string)
    requires FreshRing(ring) && a.now == b.now && LooksSame(w, Run(w, a, [Restart(ring)]), Run(w, b, [Restart(ring)]))
    ensures ValidateOpaque(w.lib, a.disk, token, a.now) == ValidateOpaque(w.lib, b.disk, token, a.now)
  {
    AfterRestart(w, a, ring, token);
    AfterRestart(w, b, ring, token);
    hide Run, FreshRing, ValidateAny, ValidateOpaque, Signatures;
  }

  /** A sweep that saves puts the swept table on the disk, and so does the next sweep unless this one has left it nothing to drop. */
  lemma HiddenOnDisk(w: World, s: State, asOf: Time, saved: bool, token: string)
    requires SweepHidden(w, s, asOf, saved) && asOf <= s.now && ExpiredKeys(s.table, asOf) != {}
    ensures ValidateOpaque(w.lib, Next(s.table, Sweep(asOf)), token, s.now) == ValidateOpaque(w.lib, s.disk, token, s.now)
  {
    var ring := SomeRing();
    var again := SweepRows(asOf, true);
    var swept := Step(w, s, SweepRows(asOf, saved));
    SweepIs(w, s, asOf, saved);
    hide Step, Run, SavesOn, LooksSame, FreshRing, ValidateOpaque, Next, ExpiredKeys;
    if saved {
      RestartSaves(w, s, ring);
      RestartSaves(w, swept, ring);
      SameOnDisk(w, swept, s, ring, token);
    } else {
      SweepRestart(w, s, asOf, ring);
      SweepRestart(w, swept, asOf, ring);
      SweepIs(w, s, asOf, true);
      SweepIs(w, swept, asOf, true);
      SameOnDisk(w, Step(w, swept, again), Step(w, s, again), ring, token);
    }
  }

  lemma HiddenOnlyIf(w: World, s: State, asOf: Time, saved: bool)
    requires RowsNamed(w, s) && asOf <= s.now && SweepHidden(w, s, asOf, saved) && ExpiredKeys(s.table, asOf) != {}
    ensures Settled(s)
  {
    forall k ensures SameAt(s.now, s.table, s.disk, k) {
      hide SweepHidden, ExpiredKeys;
      SweepInvisible(s.table, asOf, k, s.now);
      if k in s.table || k in s.disk {
        assert RowNamed(w, s, k);
        HiddenOnDisk(w, s, asOf, saved, s.log.origins[k].token);
        hide RowNamed, RowsNamed, Next, Lookup;
      }
    }
  }

  /**
   A sweep, whether its own snapshot is saved or not, shows in no continuation that saves the snapshots
   due, restarts included, exactly if it drops nothing or table and disk had the same live rows.
   */
  lemma SweepHiddenExactly(w: World, s: State, asOf: Time, saved: bool)
    requires WellConfigured(w) && Reachable(w, s) && asOf <= s.now
    ensures SweepHidden(w, s, asOf, saved) <==> ExpiredKeys(s.table, asOf) == {} || Settled(s)
  {
    ReachableKept(w, s);
    hide Reachable, WellConfigured, Traced, Once, RowsNamed, SweepHidden, Settled, ExpiredKeys;
    if ExpiredKeys(s.table, asOf) == {} || Settled(s) {
      HiddenIf(w, s, asOf, saved);
    }
    if SweepHidden(w, s, asOf, saved) && ExpiredKeys(s.table, asOf) != {} {
      HiddenOnlyIf(w, s, asOf, saved);
    }
  }

  // ---- one failed snapshot ----

  /** An expired row that a sweep would drop, and beside it a live one that is on the disk as well. */
  ghost predicate ExpiredBeside(w: World, s: State, asOf: Time, stale: string, token: string) {
    && HashToken(w.lib, stale) in s.table && Expired(s.table[HashToken(w.lib, stale)].session, asOf)
    && ValidateOpaque(w.lib, s.table, token, s.now).Some? && ValidateOpaque(w.lib, s.disk, token, s.now).Some?
  }

  /** The live token is revoked and the snapshot fails, the stale one is revoked and the snapshot succeeds, the process restarts. */
  function FailedThenSaved(token: string, stale: string, credentials: Credentials, ring: Ring): seq<Event> {
    [Revoke(token, credentials, false), Revoke(stale, credentials, true), Restart(ring)]
  }

  lemma RevokeStep(w: World, s: State, token: string, credentials: Credentials, saved: bool)
    requires token != "" && AuthenticateClient(w.clients, credentials).Some?
    ensures var s', key := Step(w, s, Revoke(token, credentials, saved)), HashToken(w.lib, token);
            && s'.now == s.now && s'.table == s.table - {key} && s'.disk == if saved && key in s.table then s.table - {key} else s.disk
  {
    StepIs(w, s, Revoke(token, credentials, saved));
    RevokeActs(w, s, token, credentials, saved);
    hide Act, Step, Saves, AuthenticateClient, HashToken;
  }

  /** What the run leaves on the disk for the restart depends on whether the stale row is still there. */
  lemma FailedThenSavedDisk(w: World, s: State, stale: string, token: string, credentials: Credentials, ring: Ring) returns (s2: State)
    requires token != "" && stale != "" && AuthenticateClient(w.clients, credentials).Some? && FreshRing(ring)
    requires HashToken(w.lib, stale) != HashToken(w.lib, token)
    ensures var es := FailedThenSaved(token, stale, credentials, ring);
            AllowedRun(w, s, es) && Run(w, s, es) == Run(w, s2, [Restart(ring)])
    ensures var key, staleKey := HashToken(w.lib, token), HashToken(w.lib, stale);
            s2.now == s.now && s2.disk == if staleKey in s.table then s.table - {key} - {staleKey} else s.disk
  {
    var first, second := Revoke(token, credentials, false), Revoke(stale, credentials, true);
    var es := FailedThenSaved(token, stale, credentials, ring);
    var s1 := Step(w, s, first);
    s2 := Step(w, s1, second);
    RevokeStep(w, s, token, credentials, false);
    RevokeStep(w, s1, stale, credentials, true);
    assert Allowed(w, s, first) && Allowed(w, s1, second);
    RestartSaves(w, s2, ring);
    hide Step, Allowed, FreshRing, AuthenticateClient, HashToken;
    assert es[0] == first && es[1..][0] == second && es[1..][1..] == [Restart(ring)];
  }

  /** A live row stays live under a sweep; a stale one goes. */
  lemma BesideSwept(w: World, s: State, asOf: Time, saved: bool, stale: string, token: string)
    requires ExpiredBeside(w, s, asOf, stale, token) && asOf <= s.now
    ensures HashToken(w.lib, stale) != HashToken(w.lib, token)
    ensures var swept := Step(w, s, SweepRows(asOf, saved));
            && swept.now == s.now && HashToken(w.lib, stale) !in swept.table
            && ValidateOpaque(w.lib, swept.disk, token, s.now).Some?
  {
    SweepIs(w, s, asOf, saved);
    hide Step, HashToken;
    SweepInvisible(s.table, asOf, HashToken(w.lib, token), s.now);
  }

  /**
   One failed snapshot makes a sweep show, whatever its own fate, even where table and disk agreed before
   it. Unswept, revoking the stale token takes a snapshot, without the token revoked before it; swept, it
   finds nothing and takes none, and a restart brings the revoked token back.
   */
  lemma FailedSnapshotShows(w: World, s: State, asOf: Time, saved: bool, stale: string, token: string, credentials: Credentials, ring: Ring)
    requires ExpiredBeside(w, s, asOf, stale, token) && asOf <= s.now
    requires token != "" && stale != "" && AuthenticateClient(w.clients, credentials).Some? && FreshRing(ring)
    ensures var swept, es := Step(w, s, SweepRows(asOf, saved)), FailedThenSaved(token, stale, credentials, ring);
            && AllowedRun(w, s, es) && AllowedRun(w, swept, es)
            && Accepted(w, Run(w, s, es), token) == None && Accepted(w, Run(w, swept, es), token).Some?
  {
    BesideSwept(w, s, asOf, saved, stale, token);
    var swept := Step(w, s, SweepRows(asOf, saved));
    assert HashToken(w.lib, stale) in s.table;
    hide Step, FailedThenSaved, AllowedRun, Run, FreshRing, AuthenticateClient, HashToken, ExpiredBeside;
    var a := FailedThenSavedDisk(w, s, stale, token, credentials, ring);
    var b := FailedThenSavedDisk(w, swept, stale, token, credentials, ring);
    AfterRestart(w, a, ring, token);
    AfterRestart(w, b, ring, token);
    assert ValidateOpaque(w.lib, a.disk, token, a.now) == None;
    hide ValidateOpaque, ValidateAny, Signatures;
  }

  // ---- states in which a sweep shows ----

  /** An honest login of a stateful client, up to its access row, whose snapshot is saved or not. */
  lemma RowAdded(w: World, s: State, q: AuthRequest, username: string, password: string, x: Exchange, job: nat,
                 random: seq<Byte>, access: seq<Byte>, saved: bool) returns (s': State, row: Row)
    requires HonestLogin(w, q, username, password, x) && ClockOk(w, s.now)
    requires ModeFor(w.cfg, ValidateAuthRequest(w.clients, q).value) == Stateful && job !in s.log.used
    requires FreshPair(s, random, access) && x.code == Encode(random) != ""
    ensures Leads(w, s, s') && s'.now == s.now && s'.log.used == s.log.used + {job}
    ensures s'.log.seen == s.log.seen + {Encode(random), Encode(access)}
    ensures s'.table == s.table[HashToken(w.lib, Encode(access)) := row] && row.session.expiresAt == s.now + w.cfg.statefulTTL
    ensures s'.disk == if saved then s'.table else s.disk
  {
    hide ClockOk, Leads, Encode, HashToken, ModeFor, At, ValidateAuthRequest, AuthenticateClient, HonestLogin, Honest, Goes, WithAccess,
      FirstSixteen;
    var s1 := LoginStores(w, s, q, username, password, x, random);
    StillStateful(w, q, username, password, x);
    var s2, g := HonestRedemption(w, s1, job, x);
    LeadsOn(w, s, s1, s2);
    s' := AccessRow(w, s2, job, g, NOTHING_YET.(scope := g.scope), s.now, access, saved);
    GoesFrame(w, s2, s');
    LeadsOn(w, s, s2, s');
    row := s'.table[HashToken(w.lib, Encode(access))];
  }

  lemma StillStateful(w: World, q: AuthRequest, username: string, password: string, x: Exchange)
    requires HonestLogin(w, q, username, password, x)
    ensures AuthenticateClient(w.clients, x.credentials) == Some(ValidateAuthRequest(w.clients, q).value)
  {
    hide AuthenticateClient, ValidateAuthRequest, ModeFor, Pkce.Verify;
  }

  lemma SameLogin(w: World, q: AuthRequest, username: string, password: string, x: Exchange, code: string)
    requires HonestLogin(w, q, username, password, x)
    ensures HonestLogin(w, q, username, password, x.(code := code))
  {
    hide AuthenticateClient, ValidateAuthRequest, ModeFor, Pkce.Verify;
  }

  /** Tokens nobody has seen, for two logins. */
  predicate FreshPairs(s: State, q: seq<Byte>, a: seq<Byte>, r: seq<Byte>, b: seq<Byte>) {
    && FreshPair(s, q, a) && FreshPair(s, r, b)
    && Encode(q) !in {Encode(r), Encode(b)} && Encode(a) !in {Encode(r), Encode(b)}
    && "" !in {Encode(q), Encode(a), Encode(r), Encode(b)}
  }

  /** A row that a sweep at this instant drops. */
  predicate StaleRow(w: World, s: State, stale: string) {
    HashToken(w.lib, stale) in s.table && Expired(s.table[HashToken(w.lib, stale)].session, s.now)
  }

  /** An honest login whose access row has expired since. */
  lemma StaleAdded(w: World, s: State, q: AuthRequest, username: string, password: string, x: Exchange, job: nat,
                   random: seq<Byte>, access: seq<Byte>, later: Time) returns (s': State)
    requires HonestLogin(w, q, username, password, x) && ClockOk(w, s.now)
    requires ModeFor(w.cfg, ValidateAuthRequest(w.clients, q).value) == Stateful && job !in s.log.used
    requires FreshPair(s, random, access) && Encode(random) != ""
    requires s.now <= later && s.now + w.cfg.statefulTTL < later && ClockOk(w, later)
    ensures Leads(w, s, s') && s'.now == later && StaleRow(w, s', Encode(access))
    ensures s'.log.used == s.log.used + {job} && s'.log.seen == s.log.seen + {Encode(random), Encode(access)}
  {
    SameLogin(w, q, username, password, x, Encode(random));
    hide Leads, Encode, HashToken, ClockOk, ModeFor, ValidateAuthRequest, HonestLogin, FreshPair, Goes;
    var s1, row := RowAdded(w, s, q, username, password, x.(code := Encode(random)), job, random, access, false);
    s' := Waits(w, s1, later);
    GoesFrame(w, s1, s');
    LeadsOn(w, s, s1, s');
  }

  /** A live row added beside a stale one, its snapshot saved or not. */
  lemma LiveAdded(w: World, s: State, q: AuthRequest, username: string, password: string, x: Exchange, job: nat,
                  random: seq<Byte>, access: seq<Byte>, stale: string, saved: bool) returns (s': State)
    requires WellConfigured(w) && Reachable(w, s) && StaleRow(w, s, stale)
    requires HonestLogin(w, q, username, password, x) && ClockOk(w, s.now) && 0 <= w.cfg.statefulTTL
    requires ModeFor(w.cfg, ValidateAuthRequest(w.clients, q).value) == Stateful && job !in s.log.used
    requires FreshPair(s, random, access) && Encode(random) != ""
    ensures Leads(w, s, s') && Reachable(w, s') && StaleRow(w, s', stale)
    ensures ValidateOpaque(w.lib, s'.table, Encode(access), s'.now).Some?
    ensures if saved then s'.disk == s'.table else ValidateOpaque(w.lib, s'.disk, Encode(access), s'.now).None?
  {
    ReachableNamed(w, s);
    UnseenHasNoRow(w, s, Encode(access));
    hide Leads, Reachable, WellConfigured, RowsNamed, Encode, HashToken, ClockOk, ModeFor, ValidateAuthRequest, HonestLogin, StaleRow,
      ValidateOpaque;
    SameLogin(w, q, username, password, x, Encode(random));
    var row: Row;
    s', row := RowAdded(w, s, q, username, password, x.(code := Encode(random)), job, random, access, saved);
    LeadsReachable(w, s, s');
    LiveBeside(w, s, s', stale, Encode(access), row, saved);
  }

  lemma LiveBeside(w: World, s: State, s': State, stale: string, token: string, row: Row, saved: bool)
    requires StaleRow(w, s, stale) && HashToken(w.lib, token) !in s.table && HashToken(w.lib, token) !in s.disk
    requires s'.now == s.now <= row.session.expiresAt && s'.table == s.table[HashToken(w.lib, token) := row]
    requires s'.disk == if saved then s'.table else s.disk
    ensures StaleRow(w, s', stale) && ValidateOpaque(w.lib, s'.table, token, s'.now).Some?
    ensures !saved ==> ValidateOpaque(w.lib, s'.disk, token, s'.now).None?
  {
    hide HashToken;
  }

  lemma DiffersShows(w: World, s: State, stale: string, token: string)
    requires WellConfigured(w) && Reachable(w, s) && StaleRow(w, s, stale)
    requires ValidateOpaque(w.lib, s.table, token, s.now) != ValidateOpaque(w.lib, s.disk, token, s.now)
    ensures !SweepHidden(w, s, s.now, true) && !SweepHidden(w, s, s.now, false)
  {
    assert !SameAt(s.now, s.table, s.disk, HashToken(w.lib, token));
    assert HashToken(w.lib, stale) in ExpiredKeys(s.table, s.now);
    hide SameAt, SweepHidden, Reachable, WellConfigured, HashToken, ExpiredKeys;
    SweepHiddenExactly(w, s, s.now, true);
    SweepHiddenExactly(w, s, s.now, false);
  }

  /**
   From every reachable state, two honest logins of a stateful client, the row of the first expired by the
   time of the second, lead to states with a stale row to sweep in which every sweep shows: one whose
   live row the disk lacks, and one whose removed row the disk still has. They lead as well to one where
   table and disk agree, so that no sweep shows unless a snapshot fails, as `FailedSnapshotShows` has it.
   */
  lemma SweepsCanShow(w: World, s: State, q: AuthRequest, username: string, password: string, x: Exchange, i: nat, j: nat,
                      code: seq<Byte>, stale: seq<Byte>, code2: seq<Byte>, access: seq<Byte>, later: Time)
    returns (unsaved: State, removed: State, kept: State)
    requires WellConfigured(w) && Reachable(w, s) && HonestLogin(w, q, username, password, x) && 0 <= w.cfg.statefulTTL
    requires ModeFor(w.cfg, ValidateAuthRequest(w.clients, q).value) == Stateful && i !in s.log.used && j !in s.log.used && i != j
    requires FreshPairs(s, code, stale, code2, access) && s.now + w.cfg.statefulTTL < later && ClockOk(w, later)
    ensures Leads(w, s, unsaved) && Leads(w, s, removed) && Leads(w, s, kept)
    ensures StaleRow(w, unsaved, Encode(stale)) && StaleRow(w, removed, Encode(stale))
    ensures !SweepHidden(w, unsaved, unsaved.now, true) && !SweepHidden(w, unsaved, unsaved.now, false)
    ensures !SweepHidden(w, removed, removed.now, true) && !SweepHidden(w, removed, removed.now, false)
    ensures Settled(kept) && ExpiredBeside(w, kept, kept.now, Encode(stale), Encode(access))
  {
    ClockIsOk(w, s);
    hide Leads, Reachable, WellConfigured, Encode, HashToken, ClockOk, ModeFor, ValidateAuthRequest, AuthenticateClient, SweepHidden,
      ValidateOpaque, RowsMatch;
    var token := Encode(access);
    var s1 := StaleAdded(w, s, q, username, password, x, i, code, stale, later);
    LeadsReachable(w, s, s1);
    unsaved := LiveAdded(w, s1, q, username, password, x, j, code2, access, Encode(stale), false);
    LeadsOn(w, s, s1, unsaved);
    DiffersShows(w, unsaved, Encode(stale), token);
    kept := LiveAdded(w, s1, q, username, password, x, j, code2, access, Encode(stale), true);
    LeadsOn(w, s, s1, kept);
    SelfMatches(kept.now, kept.table);
    StillStateful(w, q, username, password, x);
    removed := Deletes(w, kept, token, x.credentials, false);
    LeadsOn(w, s, kept, removed);
    LeadsReachable(w, s, removed);
    RemovedDiffers(w, kept, removed, Encode(stale), token);
    DiffersShows(w, removed, Encode(stale), token);
  }

  lemma RemovedDiffers(w: World, s: State, removed: State, stale: string, token: string)
    requires StaleRow(w, s, stale) && ValidateOpaque(w.lib, s.table, token, s.now).Some? && s.disk == s.table
    requires removed.table == s.table - {HashToken(w.lib, token)} && removed.disk == s.disk && removed.now == s.now
    ensures StaleRow(w, removed, stale)
    ensures ValidateOpaque(w.lib, removed.table, token, removed.now) != ValidateOpaque(w.lib, removed.disk, token, removed.now)
  {
    hide HashToken;
  }
}
