/**
 The two session stores and the bridge as the objects the server calls, over either backend.
 Random bytes, clock readings and how snapshots fare arrive as parameters; None for random bytes
 is a failed read of the system's generator.
 */
module SessionStores {
  import opened Wrappers
  import opened Clock
  import opened Base64Url
  import opened JwtClaims
  import opened Primitives
  import opened Jwt
  import opened Sessions
  import opened Stores
  import opened KeyManager
  import opened MemoryBackend
  import opened FileBackend

  // ---- the backend behind the interface ----

  datatype Backend = Memory(memory: MemoryBackend) | OnFile(file: FileBackend)

  function Footprint(b: Backend): set<object> {
    match b
    case Memory(m) => {m}
    case OnFile(f) => {f, f.dir}
  }

  /** The snapshot file holds the last table renamed into place. */
  ghost predicate Sane(b: Backend)
    reads Footprint(b)
  {
    b.OnFile? ==> b.file.dir.Recorded() && FormatRoundTrips(b.file.format) && Consistent(b.file.format, b.file.Abstract())
  }

  function Rows(b: Backend): Table
    reads Footprint(b)
  {
    match b
    case Memory(m) => m.rows
    case OnFile(f) => f.rows
  }

  /** What a restart would load. */
  ghost function Disk(b: Backend): Table
    reads Footprint(b)
  {
    match b
    case Memory(_) => map[]
    case OnFile(f) => f.committed
  }

  /** Whether a change that needs a snapshot is reported as kept. */
  predicate Saved(b: Backend, fate: Fate) {
    b.OnFile? ==> fate.Succeeds?
  }

  /** Whether a change is renamed into place. */
  predicate Renamed(b: Backend, changed: bool, fate: Fate) {
    b.OnFile? && changed && fate.Succeeds?
  }

  method PutRow(b: Backend, key: string, s: Session, now: Time, fate: Fate) returns (ok: bool)
    requires Sane(b)
    modifies Footprint(b)
    ensures Sane(b) && Rows(b) == Next(old(Rows(b)), Op.Put(key, s, now)) && ok == Saved(b, fate)
    ensures Disk(b) == if Renamed(b, true, fate) then Rows(b) else old(Disk(b))
  {
    match b
    case Memory(m) =>
      m.Put(key, s, now);
      ok := true;
    case OnFile(f) =>
      ApplyConsistent(f.format, f.Abstract(), Op.Put(key, s, now), fate);
      ok := f.Put(key, s, now, fate);
  }

  method GetRow(b: Backend, key: string, now: Time) returns (r: Option<Session>)
    ensures r == Lookup(Rows(b), key, now)
  {
    match b
    case Memory(m) => r := m.Get(key, now);
    case OnFile(f) => r := f.Get(key, now);
  }

  method DeleteRow(b: Backend, key: string, fate: Fate) returns (ok: bool)
    requires Sane(b)
    modifies Footprint(b)
    ensures Sane(b) && Rows(b) == Next(old(Rows(b)), Op.Delete(key)) && ok == (key !in old(Rows(b)) || Saved(b, fate))
    ensures Disk(b) == if Renamed(b, key in old(Rows(b)), fate) then Rows(b) else old(Disk(b))
  {
    match b
    case Memory(m) =>
      m.Delete(key);
      ok := true;
    case OnFile(f) =>
      ApplyConsistent(f.format, f.Abstract(), Op.Delete(key), fate);
      ok := f.Delete(key, fate);
  }

  method DeleteSubject(b: Backend, subject: string, fate: Fate) returns (n: nat, ok: bool)
    requires Sane(b)
    modifies Footprint(b)
    ensures Sane(b) && Rows(b) == Next(old(Rows(b)), DeleteWhereSubject(subject))
    ensures n == |OfSubject(old(Rows(b)), subject)| && ok == (n == 0 || Saved(b, fate))
    ensures Disk(b) == if Renamed(b, n > 0, fate) then Rows(b) else old(Disk(b))
  {
    match b
    case Memory(m) =>
      n := m.DeleteWhereSubject(subject);
      ok := true;
    case OnFile(f) =>
      ApplyConsistent(f.format, f.Abstract(), DeleteWhereSubject(subject), fate);
      n, ok := f.DeleteWhereSubject(subject, fate);
  }

  // ---- the stateful store ----

  class OpaqueStore {
    const lib: Library
    const backend: Backend
    const ttl: Time

    constructor (lib: Library, backend: Backend, ttl: Time)
      ensures this.lib == lib && this.backend == backend && this.ttl == ttl
    {
      this.lib := lib;
      this.backend := backend;
      this.ttl := ttl;
    }

    /** A row whose snapshot fails stays in the table, though the caller never learns its token. */
    method Create(s: Session, random: Option<seq<Byte>>, now: Time, putClock: Time, fate: Fate) returns (token: Option<string>)
      requires Sane(backend)
      modifies Footprint(backend)
      ensures Sane(backend)
      ensures random.None? ==> token == None && Rows(backend) == old(Rows(backend)) && Disk(backend) == old(Disk(backend))
      ensures random.Some? ==> Disk(backend) == if Renamed(backend, true, fate) then Rows(backend) else old(Disk(backend))
      ensures random.Some? ==>
        var t := Encode(random.value);
        && token == (if Saved(backend, fate) then Some(t) else None)
        && Rows(backend) == Next(old(Rows(backend)), Op.Put(HashToken(lib, t), OpaqueSession(lib, s, t, now, ttl), putClock))
    {
      if random.None? {
        return None;
      }
      var t := Encode(random.value);
      var sess := s.(issuedAt := now, expiresAt := now + ttl);
      if sess.id == "" {
        sess := sess.(id := FirstSixteen(HashToken(lib, t)));
      }
      var ok := PutRow(backend, HashToken(lib, t), sess, putClock, fate);
      token := if ok then Some(t) else None;
    }

    method Validate(token: string, now: Time) returns (s: Option<Session>)
      ensures s == ValidateOpaque(lib, Rows(backend), token, now)
    {
      s := GetRow(backend, HashToken(lib, token), now);
    }

    method Revoke(token: string, fate: Fate) returns (ok: bool)
      requires Sane(backend)
      modifies Footprint(backend)
      ensures Sane(backend) && Rows(backend) == Next(old(Rows(backend)), Op.Delete(HashToken(lib, token)))
      ensures ok == (HashToken(lib, token) !in old(Rows(backend)) || Saved(backend, fate))
      ensures Disk(backend) == if Renamed(backend, HashToken(lib, token) in old(Rows(backend)), fate) then Rows(backend) else old(Disk(backend))
    {
      ok := DeleteRow(backend, HashToken(lib, token), fate);
    }

    method RevokeAllForSubject(subject: string, fate: Fate) returns (n: nat, ok: bool)
      requires Sane(backend)
      modifies Footprint(backend)
      ensures Sane(backend) && Rows(backend) == Next(old(Rows(backend)), DeleteWhereSubject(subject))
      ensures n == |OfSubject(old(Rows(backend)), subject)| && ok == (n == 0 || Saved(backend, fate))
      ensures Disk(backend) == if Renamed(backend, n > 0, fate) then Rows(backend) else old(Disk(backend))
    {
      n, ok := DeleteSubject(backend, subject, fate);
    }
  }

  // ---- the stateless store ----

  /** The signature algorithms with the record of what has been signed, which is what `Accepts` speaks of. */
  class Notary {
    var signed: Signed

    constructor ()
      ensures signed == {}
    {
      signed := {};
    }

    method Sign(lib: Library, a: Alg, kid: string, pair: KeyPair, c: Claims) returns (token: string)
      modifies this
      ensures token == SignToken(lib, a, kid, pair, c)
      ensures signed == old(signed) + {(pair, SigningInput(lib, Header(AlgName(a), "JWT", kid), c))}
    {
      token := SignToken(lib, a, kid, pair, c);
      signed := signed + {(pair, SigningInput(lib, Header(AlgName(a), "JWT", kid), c))};
    }
  }

  class JWTStore {
    const lib: Library
    const km: Manager
    const notary: Notary
    const issuer: string
    const ttl: Time

    constructor (lib: Library, km: Manager, notary: Notary, issuer: string, ttl: Time)
      ensures this.lib == lib && this.km == km && this.notary == notary && this.issuer == issuer && this.ttl == ttl
    {
      this.lib := lib;
      this.km := km;
      this.notary := notary;
      this.issuer := issuer;
      this.ttl := ttl;
    }

    /** The extras of a session as claims, copied one by one. */
    static method CopyIn(extra: map<string, string>) returns (claims: Object)
      ensures claims == TextExtras(extra)
    {
      claims := map[];
      var todo := extra.Keys;
      while todo != {}
        invariant todo <= extra.Keys
        invariant claims == map k | k in extra && k !in todo :: Str(extra[k])
        decreases todo
      {
        var k :| k in todo;
        claims := claims[k := Str(extra[k])];
        todo := todo - {k};
      }
    }

    /** The extra claims that are strings, copied one by one. */
    static method CopyOut(claims: Object) returns (extra: map<string, string>)
      ensures extra == StringExtras(claims)
    {
      extra := map[];
      var todo := claims.Keys;
      while todo != {}
        invariant todo <= claims.Keys
        invariant extra == map k | k in claims && k !in todo && claims[k].Str? :: claims[k].text
        decreases todo
      {
        var k :| k in todo;
        if claims[k].Str? {
          extra := extra[k := claims[k].text];
        }
        todo := todo - {k};
      }
    }

    method Create(s: Session, random: Option<seq<Byte>>, now: Time) returns (token: Option<string>)
      requires km.Valid()
      modifies notary
      ensures token.None? <==> s.id == "" && random.None?
      ensures token.None? ==> notary.signed == old(notary.signed)
      ensures token.Some? ==>
        var k := km.Abstract().active;
        var c := SessionClaims(issuer, s, if random.Some? then Encode(random.value) else "", now, ttl);
        && token.value == SignToken(lib, k.alg, k.Kid(), k.pair, c)
        && notary.signed == old(notary.signed) + {(k.pair, SigningInput(lib, Header(AlgName(k.alg), "JWT", k.Kid()), c))}
    {
      var id := s.id;
      if id == "" {
        if random.None? {
          return None;
        }
        id := Encode(random.value);
      }
      var extra := CopyIn(s.extra);
      var claims := Claims(issuer, s.subject, [s.clientID], Unix(now + ttl), 0, Unix(now), id, s.scope, extra);
      var k := km.ActiveSigner();
      var t := notary.Sign(lib, k.alg, k.Kid(), k.pair, claims);
      token := Some(t);
    }

    method Validate(token: string, now: Time) returns (s: Option<Session>)
      requires km.Valid()
      ensures s == ValidateJwt(lib, notary.signed, km.Abstract(), token, now)
    {
      var header := PeekKid(lib, token);
      if header.None? {
        return None;
      }
      var k := km.Verifier(header.value.kid);
      if k.None? {
        return None;
      }
      var verified := Verify(lib, notary.signed, k.value.alg, k.value.pair, token, now);
      if verified.None? {
        return None;
      }
      var c := verified.value;
      var sess := Session(c.jwtID, c.subject, "", c.scope, FromUnix(c.issuedAt), FromUnix(c.expiresAt), map[]);
      if |c.audience| > 0 {
        sess := sess.(clientID := c.audience[0]);
      }
      var extra := CopyOut(c.extra);
      s := Some(sess.(extra := extra));
    }
  }

  // ---- the bridge ----

  datatype BridgeError = UnknownMode | CreationFailed | NotFound | RevocationUnsupported | SnapshotFailed

  class Bridge {
    const stateless: JWTStore
    const stateful: OpaqueStore

    constructor (stateless: JWTStore, stateful: OpaqueStore)
      ensures this.stateless == stateless && this.stateful == stateful
    {
      this.stateless := stateless;
      this.stateful := stateful;
    }

    /** Each mode writes to its own store only, and an unknown mode to neither. */
    method Create(mode: Mode, s: Session, random: Option<seq<Byte>>, now: Time, putClock: Time, fate: Fate)
      returns (r: Result<string, BridgeError>)
      requires stateless.km.Valid() && Sane(stateful.backend)
      requires {stateless.notary} !! Footprint(stateful.backend)
      modifies stateless.notary, Footprint(stateful.backend)
      ensures Sane(stateful.backend)
      ensures !mode.Stateful? ==> Rows(stateful.backend) == old(Rows(stateful.backend)) && Disk(stateful.backend) == old(Disk(stateful.backend))
      ensures !mode.Stateless? ==> stateless.notary.signed == old(stateless.notary.signed)
      ensures mode.Unknown? ==> r == Err(UnknownMode)
      ensures mode.Stateless? ==> (r.Err? <==> s.id == "" && random.None?)
      ensures mode.Stateless? && r.Err? ==> stateless.notary.signed == old(stateless.notary.signed)
      ensures mode.Stateless? && r.Ok? ==>
        var k := stateless.km.Abstract().active;
        var c := SessionClaims(stateless.issuer, s, if random.Some? then Encode(random.value) else "", now, stateless.ttl);
        && r.value == SignToken(stateless.lib, k.alg, k.Kid(), k.pair, c)
        && stateless.notary.signed
           == old(stateless.notary.signed) + {(k.pair, SigningInput(stateless.lib, Header(AlgName(k.alg), "JWT", k.Kid()), c))}
      ensures mode.Stateful? && random.None? ==>
        r.Err? && Rows(stateful.backend) == old(Rows(stateful.backend)) && Disk(stateful.backend) == old(Disk(stateful.backend))
      ensures mode.Stateful? && random.Some? ==>
        Disk(stateful.backend) == if Renamed(stateful.backend, true, fate) then Rows(stateful.backend) else old(Disk(stateful.backend))
      ensures mode.Stateful? && random.Some? ==>
        var t := Encode(random.value);
        && r == (if Saved(stateful.backend, fate) then Ok(t) else Err(CreationFailed))
        && Rows(stateful.backend) == Next(old(Rows(stateful.backend)),
             Op.Put(HashToken(stateful.lib, t), OpaqueSession(stateful.lib, s, t, now, stateful.ttl), putClock))
    {
      hide HashToken, OpaqueSession, SessionClaims, SigningInput, SignToken, Next, Encode;
      var token: Option<string>;
      match mode {
        case Stateless => token := stateless.Create(s, random, now);
        case Stateful => token := stateful.Create(s, random, now, putClock, fate);
        case Unknown(_) => return Err(UnknownMode);
      }
      r := if token.Some? then Ok(token.value) else Err(CreationFailed);
    }

    method Validate(mode: Mode, token: string, now: Time) returns (r: Result<Session, BridgeError>)
      requires stateless.km.Valid()
      ensures mode.Unknown? ==> r == Err(UnknownMode)
      ensures !mode.Unknown? ==>
        var s := if mode.Stateful? then ValidateOpaque(stateful.lib, Rows(stateful.backend), token, now)
                 else ValidateJwt(stateless.lib, stateless.notary.signed, stateless.km.Abstract(), token, now);
        r == if s.Some? then Ok(s.value) else Err(NotFound)
    {
      var s: Option<Session>;
      match mode {
        case Stateless => s := stateless.Validate(token, now);
        case Stateful => s := stateful.Validate(token, now);
        case Unknown(_) => return Err(UnknownMode);
      }
      r := if s.Some? then Ok(s.value) else Err(NotFound);
    }

    /** Stateful first, then stateless; the two stores may read the clock at different instants. */
    method ValidateAny(token: string, now: Time, later: Time) returns (r: Option<(Session, Mode)>)
      requires stateless.km.Valid() && stateless.lib == stateful.lib
      ensures later == now ==>
        r == Stores.ValidateAny(stateful.lib, stateless.notary.signed, Rows(stateful.backend), stateless.km.Abstract(), token, now)
      ensures var session := ValidateOpaque(stateful.lib, Rows(stateful.backend), token, now);
              var claimed := ValidateJwt(stateful.lib, stateless.notary.signed, stateless.km.Abstract(), token, later);
              r == if session.Some? then Some((session.value, Stateful))
                   else if claimed.Some? then Some((claimed.value, Stateless))
                   else None
    {
      hide ValidateJwt, ValidateOpaque;
      var s := stateful.Validate(token, now);
      if s.Some? {
        return Some((s.value, Stateful));
      }
      s := stateless.Validate(token, later);
      if s.Some? {
        return Some((s.value, Stateless));
      }
      r := None;
    }

    method Revoke(mode: Mode, token: string, fate: Fate) returns (r: Result<(), BridgeError>)
      requires Sane(stateful.backend)
      modifies Footprint(stateful.backend)
      ensures Sane(stateful.backend)
      ensures Rows(stateful.backend)
              == if mode.Stateful? then Next(old(Rows(stateful.backend)), Op.Delete(HashToken(stateful.lib, token)))
                 else old(Rows(stateful.backend))
      ensures Disk(stateful.backend)
              == if mode.Stateful? && Renamed(stateful.backend, HashToken(stateful.lib, token) in old(Rows(stateful.backend)), fate)
                 then Rows(stateful.backend) else old(Disk(stateful.backend))
      ensures mode.Stateless? ==> r == Err(RevocationUnsupported)
      ensures mode.Unknown? ==> r == Err(UnknownMode)
      ensures mode.Stateful? ==>
        r == if HashToken(stateful.lib, token) !in old(Rows(stateful.backend)) || Saved(stateful.backend, fate) then Ok(())
             else Err(SnapshotFailed)
    {
      match mode {
        case Stateless => return Err(RevocationUnsupported);
        case Unknown(_) => return Err(UnknownMode);
        case Stateful =>
          var ok := stateful.Revoke(token, fate);
          r := if ok then Ok(()) else Err(SnapshotFailed);
      }
    }

    /** Only stateful sessions, and all of the subject's: `SubjectRevocation` says what that leaves. */
    method RevokeAllForSubject(subject: string, fate: Fate) returns (n: nat, ok: bool)
      requires Sane(stateful.backend)
      modifies Footprint(stateful.backend)
      ensures Sane(stateful.backend) && Rows(stateful.backend) == Next(old(Rows(stateful.backend)), DeleteWhereSubject(subject))
      ensures n == |OfSubject(old(Rows(stateful.backend)), subject)| && ok == (n == 0 || Saved(stateful.backend, fate))
      ensures Disk(stateful.backend) == if Renamed(stateful.backend, n > 0, fate) then Rows(stateful.backend) else old(Disk(stateful.backend))
    {
      n, ok := stateful.RevokeAllForSubject(subject, fate);
    }
  }
}
