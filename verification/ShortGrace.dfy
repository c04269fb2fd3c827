/**
 A grace period that does not cover the lifetime and its extra second loses keys for real: from every
 reachable state in which a handler is about to mint a JWT there is a run, whatever second the token
 is to expire in, to a state where the token is live and no longer accepted.
 */
module ShortGrace {
  import opened Wrappers
  import opened Clock
  import opened Base64Url
  import opened Primitives
  import opened Jwt
  import opened KeyRing
  import opened Stores
  import opened Grants
  import opened Sidecar
  import opened KeyCoverage
  import opened HandlerRuns
  import Text

  /** The clock reading that makes a token expire at the start of this second. */
  function ReadingFor(life: Time, expiry: int): Time {
    expiry * SECOND - life
  }

  /** The last instant of that second, at which the time check still passes the token. */
  function LastInstant(expiry: int): Time {
    expiry * SECOND + SECOND - 1
  }

  /** Rotating the key out and, at a later reading of the clock, pruning. */
  lemma RotatesOut(w: World, s: State, next: Event, later: Time) returns (s': State)
    requires next.RotateKey? && next.material.Some? && s.now <= later && ClockOk(w, later)
    ensures Leads(w, s, s') && s'.now == later && s'.notary == s.notary
    ensures s'.ring == Pruned(NextRing(s, next), later - w.gracePeriod)
  {
    hide ClockOk, Leads, NextRing, Pruned;
    var s1 := Step(w, s, next);
    LeadsStep(w, s, next);
    assert s1 == Rotate(s, next);
    var s2 := Waits(w, s1, later);
    LeadsOn(w, s, s1, s2);
    s' := Step(w, s2, PruneKeys);
    LeadsStep(w, s2, PruneKeys);
    LeadsOn(w, s, s2, s');
  }

  /** If pruning is that late, every key retired by then is dropped, the signing key among them. */
  lemma KeyIsLost(w: World, s: State, next: Event, later: Time)
    requires next.RotateKey? && next.material.Some? && Ordered(s.ring, s.now) && s.now <= later - w.gracePeriod
    ensures Find(Pruned(NextRing(s, next), later - w.gracePeriod), s.ring.active.Kid()) == None
  {
    var rotated := NextRing(s, next);
    var r := Pruned(rotated, later - w.gracePeriod);
    assert forall i :: 0 <= i < |rotated.retired| ==> rotated.retired[i].at <= s.now;
    assert rotated.active.number != s.ring.active.number;
    hide Kept, NextRing, Ordered, Text.Decimal, Text.Digits, AlgName, Unix;
    KeptNone(rotated.retired, later - w.gracePeriod);
    if rotated.active.Kid() == s.ring.active.Kid() {
      KidDeterminesNumber(rotated.active, s.ring.active);
    }
  }

  /** A token whose key is not found is refused, live or not. */
  lemma Refused(w: World, s: State, d: Draft, k: Key)
    requires JsonRoundTrips(w.lib) && Find(s.ring, k.Kid()) == None
    ensures ValidateJwt(w.lib, Signatures(s), s.ring, TokenOf(w, k, d), s.now) == None
  {
    PeekSigned(w.lib, k.alg, k.Kid(), k.pair, d.claims);
    hide Find, PeekKid, SignToken;
  }

  lemma StillLive(w: World, g: Grant, random: seq<Byte>, expiry: int)
    requires expiry != 0
    ensures var c := AccessDraft(w, g, ReadingFor(w.cfg.statelessTTL, expiry), random).claims;
            c.expiresAt == expiry && Live(c, LastInstant(expiry))
    ensures var c := IdDraft(w, g, ReadingFor(ID_TOKEN_TTL, expiry)).claims;
            c.expiresAt == expiry && Live(c, LastInstant(expiry))
  {
    hide Encode;
  }

  /** The token has been signed and is live, but its key is gone and it is refused. */
  ghost predicate LiveButRefused(w: World, s: State, d: Draft, k: Key) {
    && (k.pair, MessageOf(w, k, d)) in s.notary && Live(d.claims, s.now)
    && Find(s.ring, k.Kid()) == None && ValidateJwt(w.lib, Signatures(s), s.ring, TokenOf(w, k, d), s.now) == None
  }

  lemma LosesKey(w: World, s: State, next: Event, d: Draft, expiry: int) returns (s': State)
    requires JsonRoundTrips(w.lib) && Ordered(s.ring, s.now) && (s.ring.active.pair, MessageOf(w, s.ring.active, d)) in s.notary
    requires next.RotateKey? && next.material.Some? && ClockOk(w, LastInstant(expiry)) && Live(d.claims, LastInstant(expiry))
    requires s.now <= LastInstant(expiry) - w.gracePeriod && s.now <= LastInstant(expiry)
    ensures Leads(w, s, s') && LiveButRefused(w, s', d, s.ring.active)
  {
    hide ClockOk, Leads, Live, Find, ValidateJwt, TokenOf, MessageOf, Ordered, NextRing, Pruned, JsonRoundTrips;
    s' := RotatesOut(w, s, next, LastInstant(expiry));
    KeyIsLost(w, s, next, LastInstant(expiry));
    Refused(w, s', d, s.ring.active);
  }

  /**
   The token's signature is made and its key rotated out at once; a nanosecond before its expiry
   second ends, it is refused.
   */
  lemma ShortGraceLosesKey(w: World, s: State, job: nat, g: Grant, resp: TokenSet, random: seq<Byte>, expiry: int, next: Event)
    returns (s': State)
    requires WellConfigured(w) && Reachable(w, s) && At(s, job, g, resp, AtAccess) && ModeFor(w.cfg, g.client) == Stateless
    requires !GraceCovers(w.cfg.statelessTTL, w.gracePeriod)
    requires expiry != 0 && s.now <= ReadingFor(w.cfg.statelessTTL, expiry)
    requires ClockOk(w, ReadingFor(w.cfg.statelessTTL, expiry)) && ClockOk(w, LastInstant(expiry))
    requires next.RotateKey? && next.material.Some?
    ensures Leads(w, s, s')
    ensures var d := AccessDraft(w, g, ReadingFor(w.cfg.statelessTTL, expiry), random);
            d.claims.expiresAt == expiry && LiveButRefused(w, s', d, s.ring.active)
  {
    ReachableCovered(w, s);
    OrderedSince(w, s, ReadingFor(w.cfg.statelessTTL, expiry));
    StillLive(w, g, random, expiry);
    Uncovered(w.cfg.statelessTTL, w.gracePeriod, expiry);
    hide Reachable, KeysCovered, ClockOk, Leads, Live, ModeFor, MessageOf, AccessDraft, Ordered, At, GraceCovers, LiveButRefused;
    var s1 := MintsAt(w, s, job, g, resp, random, ReadingFor(w.cfg.statelessTTL, expiry));
    s' := LosesKey(w, s1, next, AccessDraft(w, g, ReadingFor(w.cfg.statelessTTL, expiry), random), expiry);
    LeadsOn(w, s, s1, s');
  }

  /** The same of the ten-minute ID token, for a handler that is about to mint one. */
  lemma ShortGraceLosesIdKey(w: World, s: State, job: nat, g: Grant, resp: TokenSet, expiry: int, next: Event) returns (s': State)
    requires WellConfigured(w) && Reachable(w, s) && At(s, job, g, resp, AtId) && HasScope(g.scope, "openid")
    requires !GraceCovers(ID_TOKEN_TTL, w.gracePeriod)
    requires expiry != 0 && s.now <= ReadingFor(ID_TOKEN_TTL, expiry)
    requires ClockOk(w, ReadingFor(ID_TOKEN_TTL, expiry)) && ClockOk(w, LastInstant(expiry))
    requires next.RotateKey? && next.material.Some?
    ensures Leads(w, s, s')
    ensures var d := IdDraft(w, g, ReadingFor(ID_TOKEN_TTL, expiry));
            d.claims.expiresAt == expiry && LiveButRefused(w, s', d, s.ring.active)
  {
    ReachableCovered(w, s);
    OrderedSince(w, s, ReadingFor(ID_TOKEN_TTL, expiry));
    StillLive(w, g, [], expiry);
    Uncovered(ID_TOKEN_TTL, w.gracePeriod, expiry);
    hide Reachable, KeysCovered, ClockOk, Leads, Live, HasScope, MessageOf, IdDraft, Ordered, At, GraceCovers, LiveButRefused;
    var s1 := MintsIdAt(w, s, job, g, resp, ReadingFor(ID_TOKEN_TTL, expiry));
    s' := LosesKey(w, s1, next, IdDraft(w, g, ReadingFor(ID_TOKEN_TTL, expiry)), expiry);
    LeadsOn(w, s, s1, s');
  }

  lemma Uncovered(life: Time, grace: Time, expiry: int)
    requires !GraceCovers(life, grace)
    ensures ReadingFor(life, expiry) <= LastInstant(expiry) - grace && ReadingFor(life, expiry) <= LastInstant(expiry)
  {
  }

  /** The clock read and the access token signed at this instant. */
  lemma MintsAt(w: World, s: State, job: nat, g: Grant, resp: TokenSet, random: seq<Byte>, at: Time) returns (s': State)
    requires At(s, job, g, resp, AtAccess) && ModeFor(w.cfg, g.client) == Stateless && s.now <= at && ClockOk(w, at)
    ensures Leads(w, s, s') && s'.ring == s.ring && s'.now == at
    ensures (s.ring.active.pair, MessageOf(w, s.ring.active, AccessDraft(w, g, at, random))) in s'.notary
  {
    hide ClockOk, Leads, ModeFor, TokenOf, MessageOf, AccessDraft;
    var s1 := Waits(w, s, at);
    s' := AccessJwt(w, s1, job, g, resp, random);
    hide Goes, At;
    GoesFrame(w, s, s1);
    GoesFrame(w, s1, s');
    LeadsOn(w, s, s1, s');
  }

  lemma MintsIdAt(w: World, s: State, job: nat, g: Grant, resp: TokenSet, at: Time) returns (s': State)
    requires At(s, job, g, resp, AtId) && HasScope(g.scope, "openid") && s.now <= at && ClockOk(w, at)
    ensures Leads(w, s, s') && s'.ring == s.ring && s'.now == at
    ensures (s.ring.active.pair, MessageOf(w, s.ring.active, IdDraft(w, g, at))) in s'.notary
  {
    hide ClockOk, Leads, HasScope, TokenOf, MessageOf, IdDraft;
    var s1 := Waits(w, s, at);
    s' := IdJwt(w, s1, job, g, resp);
    hide Goes, At;
    GoesFrame(w, s, s1);
    GoesFrame(w, s1, s');
    LeadsOn(w, s, s1, s');
  }

  lemma OrderedSince(w: World, s: State, later: Time)
    requires KeysCovered(w, s) && s.now <= later
    ensures Ordered(s.ring, later)
  {
    hide JobCovered, MintedCovered;
  }
}
