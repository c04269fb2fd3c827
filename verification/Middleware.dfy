/** The resource server's side: `middleware.LocalValidator` and its cached key set. */
module Middleware {
  import opened Wrappers
  import opened Clock
  import opened Jwt
  import opened KeyRing
  import opened Grants
  import opened Sidecar
  import KeyCoverage
  import Lifetimes
  import OpaqueTokens

  type KeyCache = map<string, Jwk>

  /** The cache a fetched document fills: one entry per key id, the last one winning. */
  function CacheOf(doc: seq<Jwk>): KeyCache {
    if doc == [] then map[] else CacheOf(doc[..|doc| - 1])[doc[|doc| - 1].kid := doc[|doc| - 1]]
  }

  class LocalValidator {
    const ttl: Time
    var keys: KeyCache
    var fetchedAt: Time

    constructor (ttl: Time, zero: Time)
      ensures this.ttl == ttl && keys == map[] && fetchedAt == zero
    {
      this.ttl := ttl;
      keys := map[];
      fetchedAt := zero;
    }

    predicate Stale(now: Time)
      reads this
    {
      now - fetchedAt > ttl
    }

    /** `fetched` is the document the sidecar answers with, None when the request or its decoding fails. */
    method RefreshIfStale(now: Time, fetched: Option<seq<Jwk>>, stored: Time) returns (ok: bool)
      modifies this
      ensures ok <==> !old(Stale(now)) || fetched.Some?
      ensures if old(Stale(now)) && fetched.Some? then keys == CacheOf(fetched.value) && fetchedAt == stored
              else keys == old(keys) && fetchedAt == old(fetchedAt)
      ensures ok && now <= stored ==> now - fetchedAt <= ttl || ttl < 0
      ensures now - old(fetchedAt) <= ttl ==> ok && keys == old(keys) && fetchedAt == old(fetchedAt)
      ensures now - old(fetchedAt) > ttl && fetched.None? ==> !ok
    {
      if !Stale(now) {
        return true;
      }
      if fetched.None? {
        return false;
      }
      var doc := fetched.value;
      keys := map[];
      for i := 0 to |doc|
        invariant keys == CacheOf(doc[..i])
      {
        keys := keys[doc[i].kid := doc[i]];
        assert doc[..i + 1][..i] == doc[..i];
      }
      assert doc[..|doc|] == doc;
      fetchedAt := stored;
      ok := true;
    }

    /** `Keys`: None for a failed refresh. */
    method Keys(now: Time, fetched: Option<seq<Jwk>>, stored: Time, kid: string) returns (r: Option<Option<Jwk>>)
      modifies this
      ensures r.Some? <==> !old(Stale(now)) || fetched.Some?
      ensures r.Some? ==> r.value == if kid in keys then Some(keys[kid]) else None
      ensures keys == if old(Stale(now)) && fetched.Some? then CacheOf(fetched.value) else old(keys)
      ensures r.Some? && now <= stored ==> now - fetchedAt <= ttl || ttl < 0
      ensures now - old(fetchedAt) <= ttl ==> r.Some? && keys == old(keys)
    {
      var ok := RefreshIfStale(now, fetched, stored);
      if !ok {
        return None;
      }
      r := Some(if kid in keys then Some(keys[kid]) else None);
    }
  }

  /** The cache answers a key id with an entry of the document, and with one whenever the document has any. */
  lemma {:induction false} CacheAnswers(doc: seq<Jwk>, kid: string)
    ensures kid in CacheOf(doc) <==> exists i :: 0 <= i < |doc| && doc[i].kid == kid
    ensures kid in CacheOf(doc) ==> exists i :: 0 <= i < |doc| && doc[i].kid == kid && CacheOf(doc)[kid] == doc[i]
  {
    if doc != [] {
      var init := doc[..|doc| - 1];
      CacheAnswers(init, kid);
      if doc[|doc| - 1].kid != kid && kid in CacheOf(init) {
        var i :| 0 <= i < |init| && init[i].kid == kid && CacheOf(init)[kid] == init[i];
        assert doc[i] == init[i];
      }
      if i :| 0 <= i < |doc| && doc[i].kid == kid && i < |doc| - 1 {
        assert init[i].kid == kid;
      }
    }
  }

  /** A cached copy of a ring's published keys answers exactly as the ring's own lookup. */
  lemma CacheAgrees(r: Ring, now: Time, kid: string)
    requires Ordered(r, now)
    ensures kid in CacheOf(Published(r)) <==> Find(r, kid).Some?
    ensures kid in CacheOf(Published(r)) ==> CacheOf(Published(r))[kid] == ToJwk(Find(r, kid).value)
  {
    hide Find;
    CacheAnswers(Published(r), kid);
    PublishedIffFound(r, now, kid);
  }

  /** In every reachable state the published keys and the lookup agree on every key id. */
  lemma JwksAgrees(w: World, s: State, kid: string)
    requires Reachable(w, s)
    ensures kid in CacheOf(Published(s.ring)) <==> Find(s.ring, kid).Some?
    ensures kid in CacheOf(Published(s.ring)) ==> CacheOf(Published(s.ring))[kid] == ToJwk(Find(s.ring, kid).value)
  {
    KeyCoverage.ReachableCovered(w, s);
    hide Find, Reachable;
    CacheAgrees(s.ring, s.now, kid);
  }

  /**
   A key set cached in a reachable state resolves the key of every token whose signer had been
   fetched by then, for as long as that token stays live, however the server's keys move on.
   */
  lemma CachedKeyOutlivesToken(w: World, s: State, d: Draft, k: Key, later: Time)
    requires Reachable(w, s) && s.now <= later
    requires (exists n :: n in s.notary && s.notary[n].draft == d && s.notary[n].key == k)
             || (exists j :: j in s.jobs && s.jobs[j].Issuing? && s.jobs[j].stage == Holding(d, k))
    requires KeyCoverage.GraceCovers(d.life, w.gracePeriod) && d.claims.expiresAt != 0 && Live(d.claims, later)
    ensures k.Kid() in CacheOf(Published(s.ring)) && CacheOf(Published(s.ring))[k.Kid()] == ToJwk(k)
  {
    KeyCoverage.ReachableCovered(w, s);
    KeyCoverage.LiveTokenFindsKey(w, s, d, k, later);
    hide Find, Reachable;
    CacheAgrees(s.ring, s.now, k.Kid());
  }

  // ---- keys made after the fetch ----

  /** Every key of the later ring was in the earlier one or has been made since. */
  ghost predicate Descends(r: Ring, later: Ring) {
    r.made <= later.made && (forall k :: Holds(later, k) ==> Holds(r, k) || r.made < k.number)
  }

  lemma MovesDescend(w: World, r: Ring, s: State, s': State)
    requires Descends(r, s.ring) && KeyCoverage.RingMoves(w, s, s')
    ensures Descends(r, s'.ring)
  {
    forall k | Holds(s'.ring, k) ensures Holds(r, k) || r.made < k.number {
      hide KeyCoverage.RingMoves;
      HeldBefore(w, s, s', k);
    }
    hide Descends, Holds, Kept;
  }

  lemma HeldBefore(w: World, s: State, s': State, k: Key)
    requires KeyCoverage.RingMoves(w, s, s') && Holds(s'.ring, k)
    ensures Holds(s.ring, k) || s.ring.made < k.number
  {
    if s'.ring == Pruned(s.ring, s.now - w.gracePeriod) && k != s'.ring.active {
      var i :| 0 <= i < |s'.ring.retired| && s'.ring.retired[i].key == k;
      KeptMembers(s.ring.retired, s.now - w.gracePeriod, s'.ring.retired[i]);
      var j :| 0 <= j < |s.ring.retired| && s.ring.retired[j] == s'.ring.retired[i];
    }
  }

  lemma {:induction false} RunDescends(w: World, r: Ring, s: State, es: seq<Event>)
    requires AllowedRun(w, s, es) && OpaqueTokens.NoRestart(es) && Descends(r, s.ring)
    ensures Descends(r, Run(w, s, es).ring)
    decreases |es|
  {
    hide Step, Allowed, Descends, KeyCoverage.RingMoves;
    if es != [] {
      Lifetimes.StepKeeps(w, s, es[0]);
      MovesDescend(w, r, s, Step(w, s, es[0]));
      RunDescends(w, r, Step(w, s, es[0]), es[1..]);
    }
  }

  /**
   Which keys of the same life a cached key set answers for, and with what: exactly those made by the
   time of the fetch. A token under a key made since is unknown to it until the next fetch.
   */
  lemma CacheResolvesIffMade(w: World, s: State, es: seq<Event>, k: Key)
    requires Reachable(w, s) && AllowedRun(w, s, es) && OpaqueTokens.NoRestart(es) && Holds(Run(w, s, es).ring, k)
    ensures k.Kid() in CacheOf(Published(s.ring)) <==> k.number <= s.ring.made
    ensures k.number <= s.ring.made ==> CacheOf(Published(s.ring))[k.Kid()] == ToJwk(k)
  {
    KeyCoverage.ReachableCovered(w, s);
    RunDescends(w, s.ring, s, es);
    hide Find, Reachable, Run, AllowedRun, OpaqueTokens.NoRestart;
    CacheAgrees(s.ring, s.now, k.Kid());
    if k.number <= s.ring.made {
      FindHeld(s.ring, s.now, k);
    } else if Find(s.ring, k.Kid()).Some? {
      FindOnlyHeld(s.ring, k.Kid());
      KidDeterminesNumber(Find(s.ring, k.Kid()).value, k);
    }
  }
}
