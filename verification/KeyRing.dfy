/**
 The signing key lifecycle. `Ring` is the abstract state of the key manager: the key that signs
 and the retired keys still kept, oldest first; `Rotated` and `Pruned` are its transitions.
 */
module KeyRing {
  import opened Wrappers
  import opened Clock
  import opened Primitives
  import opened Jwt
  import Text

  /** A generated key pair with what its key id is printed from. */
  datatype Key = Key(alg: Alg, number: nat, kidClock: Time, createdAt: Time, pair: KeyPair) {
    function Kid(): string {
      AlgName(alg) + "-" + Text.Decimal(Unix(kidClock)) + "-" + Text.Digits(number)
    }
  }

  /** Key ids differ as soon as the sequence numbers they were made with do. */
  lemma KidDeterminesNumber(a: Key, b: Key)
    requires a.Kid() == b.Kid()
    ensures a.number == b.number
  {
    Text.LastDash(AlgName(a.alg) + "-" + Text.Decimal(Unix(a.kidClock)), Text.Digits(a.number),
                  AlgName(b.alg) + "-" + Text.Decimal(Unix(b.kidClock)), Text.Digits(b.number));
    Text.DigitsInjective(a.number, b.number);
  }

  lemma KidParts(a: Key, b: Key)
    requires a.Kid() == b.Kid()
    ensures a.alg == b.alg && Unix(a.kidClock) == Unix(b.kidClock)
  {
    hide Text.Digits, Text.Decimal, Unix;
    KidDeterminesNumber(a, b);
    var x, y := AlgName(a.alg) + "-" + Text.Decimal(Unix(a.kidClock)), AlgName(b.alg) + "-" + Text.Decimal(Unix(b.kidClock));
    var tail := "-" + Text.Digits(a.number);
    assert a.Kid() == x + tail && b.Kid() == y + tail;
    assert x == (x + tail)[..|x|] && y == (y + tail)[..|y|];
    assert "RS256"[0] != "EdDSA"[0] && x[0] == AlgName(a.alg)[0] && y[0] == AlgName(b.alg)[0];
    AlgNameInjective(a.alg, b.alg);
    assert Text.Decimal(Unix(a.kidClock)) == x[6..] && Text.Decimal(Unix(b.kidClock)) == y[6..];
    Text.DecimalInjective(Unix(a.kidClock), Unix(b.kidClock));
  }

  /** Two key ids are the same exactly if algorithm, second and sequence number are. */
  lemma KidIff(a: Key, b: Key)
    ensures a.Kid() == b.Kid() <==> a.alg == b.alg && Unix(a.kidClock) == Unix(b.kidClock) && a.number == b.number
  {
    if a.Kid() == b.Kid() {
      KidDeterminesNumber(a, b);
      KidParts(a, b);
    }
  }

  /** The key id: algorithm, second of its making, sequence number. */
  lemma KidWritten(k: Key)
    ensures k.Kid() == (if k.alg == EdDSA then "EdDSA" else "RS256") + "-" + Text.Decimal(Unix(k.kidClock)) + "-" + Text.Decimal(k.number)
  {
    AlgNames();
  }

  datatype Retired = Retired(key: Key, at: Time)

  datatype Ring = Ring(active: Key, retired: seq<Retired>, made: nat)

  function Rotated(r: Ring, next: Key, at: Time): Ring {
    Ring(next, r.retired + [Retired(r.active, at)], next.number)
  }

  /** The retired keys demoted after the cutoff, in order. */
  function Kept(keys: seq<Retired>, cutoff: Time): seq<Retired> {
    if keys == [] then []
    else if keys[|keys| - 1].at > cutoff then Kept(keys[..|keys| - 1], cutoff) + [keys[|keys| - 1]]
    else Kept(keys[..|keys| - 1], cutoff)
  }

  function Pruned(r: Ring, cutoff: Time): Ring {
    r.(retired := Kept(r.retired, cutoff))
  }

  function FindRetired(keys: seq<Retired>, kid: string): Option<Key> {
    if keys == [] then None
    else if keys[0].key.Kid() == kid then Some(keys[0].key)
    else FindRetired(keys[1..], kid)
  }

  /** The key a token's key id resolves to. */
  function Find(r: Ring, kid: string): Option<Key> {
    if r.active.Kid() == kid then Some(r.active) else FindRetired(r.retired, kid)
  }

  // ---- JWKS ----

  /** One published key; `public` stands for the encoded public half of the pair. */
  datatype Jwk = Jwk(kty: string, use: string, alg: string, kid: string, crv: string, public: KeyPair)

  function ToJwk(k: Key): Jwk {
    match k.alg
    case RS256 => Jwk("RSA", "sig", "RS256", k.Kid(), "", k.pair)
    case EdDSA => Jwk("OKP", "sig", "EdDSA", k.Kid(), "Ed25519", k.pair)
  }

  /** The active key, then the retired ones. */
  function KeyAt(r: Ring, i: nat): Key
    requires i <= |r.retired|
  {
    if i == 0 then r.active else r.retired[i - 1].key
  }

  function Published(r: Ring): seq<Jwk> {
    seq(|r.retired| + 1, i requires 0 <= i <= |r.retired| => ToJwk(KeyAt(r, i)))
  }

  /**
   The document: the active key first, then the retired ones, oldest first, each under its own id, with
   the type its algorithm needs (RFC 7518, section 6.3, and RFC 8037) and the name tokens under it carry.
   */
  lemma PublishedForms(r: Ring, i: nat)
    requires i <= |r.retired|
    ensures var k := if i == 0 then r.active else r.retired[i - 1].key;
            var jwk := Published(r)[i];
            && |Published(r)| == 1 + |r.retired| && jwk.kid == k.Kid() && jwk.public == k.pair
            && jwk.use == "sig" && jwk.alg == AlgName(k.alg)
            && (k.alg == RS256 ==> jwk.kty == "RSA" && jwk.alg == "RS256" && jwk.crv == "")
            && (k.alg == EdDSA ==> jwk.kty == "OKP" && jwk.alg == "EdDSA" && jwk.crv == "Ed25519")
  {
    AlgNames();
  }

  // ---- what every ring reached by the manager keeps ----

  /** Numbers grow along the list up to the active key's; retirement times never go back and lie in the past. */
  predicate Ordered(r: Ring, now: Time) {
    && (forall i, j :: 0 <= i < j < |r.retired| ==> r.retired[i].key.number < r.retired[j].key.number)
    && (forall i, j :: 0 <= i < j < |r.retired| ==> r.retired[i].at <= r.retired[j].at)
    && (forall i :: 0 <= i < |r.retired| ==> r.retired[i].key.number < r.active.number && r.retired[i].at <= now)
    && r.active.number <= r.made
  }

  lemma {:induction false} KeptMembers(keys: seq<Retired>, cutoff: Time, x: Retired)
    ensures x in Kept(keys, cutoff) <==> x in keys && x.at > cutoff
  {
    if keys != [] {
      KeptMembers(keys[..|keys| - 1], cutoff, x);
      assert keys == keys[..|keys| - 1] + [keys[|keys| - 1]];
    }
  }

  predicate TimesOrdered(keys: seq<Retired>) {
    forall i, j :: 0 <= i < j < |keys| ==> keys[i].at <= keys[j].at
  }

  lemma {:induction false} KeptNone(keys: seq<Retired>, cutoff: Time)
    requires forall i :: 0 <= i < |keys| ==> keys[i].at <= cutoff
    ensures Kept(keys, cutoff) == []
  {
    if keys != [] {
      KeptNone(keys[..|keys| - 1], cutoff);
    }
  }

  /** `n` splits the list at the cutoff. */
  predicate SplitsAt(keys: seq<Retired>, cutoff: Time, n: nat) {
    && n <= |keys|
    && (forall i :: 0 <= i < n ==> keys[i].at <= cutoff)
    && (forall i :: n <= i < |keys| ==> keys[i].at > cutoff)
  }

  lemma {:induction false} KeptIsSuffix(keys: seq<Retired>, cutoff: Time) returns (n: nat)
    requires TimesOrdered(keys)
    ensures SplitsAt(keys, cutoff, n) && Kept(keys, cutoff) == keys[n..]
  {
    if keys == [] || keys[|keys| - 1].at <= cutoff {
      KeptNone(keys, cutoff);
      n := |keys|;
    } else {
      n := KeptIsSuffix(keys[..|keys| - 1], cutoff);
      assert keys[n..] == keys[..|keys| - 1][n..] + [keys[|keys| - 1]];
    }
  }

  /**
   Because the retired list is ordered by retirement time, pruning drops exactly the prefix of
   keys demoted at or before the cutoff and keeps the rest in place.
   */
  lemma PruneDropsPrefix(r: Ring, now: Time, cutoff: Time)
    requires Ordered(r, now)
    ensures Ordered(Pruned(r, cutoff), now)
    ensures exists n: nat :: SplitsAt(r.retired, cutoff, n) && Pruned(r, cutoff).retired == r.retired[n..]
  {
    var n := KeptIsSuffix(r.retired, cutoff);
    assert SplitsAt(r.retired, cutoff, n);
  }

  lemma RotateKeepsOrder(r: Ring, now: Time, next: Key, at: Time)
    requires Ordered(r, now) && now <= at && next.number > r.made
    ensures Ordered(Rotated(r, next, at), at)
  {
  }

  lemma {:induction false} FindRetiredFinds(keys: seq<Retired>, i: nat)
    requires i < |keys|
    requires forall a, b :: 0 <= a < b < |keys| ==> keys[a].key.number < keys[b].key.number
    ensures FindRetired(keys, keys[i].key.Kid()) == Some(keys[i].key)
  {
    if keys[0].key.Kid() == keys[i].key.Kid() {
      KidDeterminesNumber(keys[0].key, keys[i].key);
    } else {
      FindRetiredFinds(keys[1..], i - 1);
    }
  }

  predicate Holds(r: Ring, k: Key) {
    k == r.active || exists i :: 0 <= i < |r.retired| && r.retired[i].key == k
  }

  /** A key the ring holds is the one its key id resolves to. */
  lemma FindHeld(r: Ring, now: Time, k: Key)
    requires Ordered(r, now) && Holds(r, k)
    ensures Find(r, k.Kid()) == Some(k)
  {
    if k == r.active {
    } else {
      var i :| 0 <= i < |r.retired| && r.retired[i].key == k;
      FindRetiredFinds(r.retired, i);
      if r.active.Kid() == k.Kid() {
        KidDeterminesNumber(r.active, k);
      }
    }
  }

  lemma {:induction false} FoundIsHeld(keys: seq<Retired>, kid: string)
    requires FindRetired(keys, kid).Some?
    ensures exists i :: 0 <= i < |keys| && keys[i].key == FindRetired(keys, kid).value
    ensures FindRetired(keys, kid).value.Kid() == kid
  {
    if keys[0].key.Kid() != kid {
      FoundIsHeld(keys[1..], kid);
      var i :| 0 <= i < |keys[1..]| && keys[1..][i].key == FindRetired(keys, kid).value;
      assert keys[i + 1].key == FindRetired(keys, kid).value;
    } else {
      assert keys[0].key == FindRetired(keys, kid).value;
    }
  }

  lemma FindOnlyHeld(r: Ring, kid: string)
    requires Find(r, kid).Some?
    ensures Holds(r, Find(r, kid).value) && Find(r, kid).value.Kid() == kid
  {
    if r.active.Kid() != kid {
      FoundIsHeld(r.retired, kid);
    }
  }

  /** A key id is published exactly when the verifier lookup resolves it, and for the same key. */
  lemma PublishedIffFound(r: Ring, now: Time, kid: string)
    requires Ordered(r, now)
    ensures (exists j :: 0 <= j < |Published(r)| && Published(r)[j].kid == kid) <==> Find(r, kid).Some?
    ensures forall j :: 0 <= j < |Published(r)| && Published(r)[j].kid == kid ==>
      Find(r, kid).Some? && Published(r)[j] == ToJwk(Find(r, kid).value)
  {
    hide AlgName, Text.Decimal, Text.Digits, Ordered, Find;
    var all := Published(r);
    forall j | 0 <= j < |all| && all[j].kid == kid ensures Find(r, kid).Some? && all[j] == ToJwk(Find(r, kid).value) {
      var k := KeyAt(r, j);
      assert Holds(r, k);
      FindHeld(r, now, k);
    }
    if Find(r, kid).Some? {
      FindOnlyHeld(r, kid);
      var j := PlaceOf(r, Find(r, kid).value);
      assert all[j].kid == kid;
    }
  }

  lemma PlaceOf(r: Ring, k: Key) returns (j: nat)
    requires Holds(r, k)
    ensures j < |Published(r)| && Published(r)[j] == ToJwk(k)
  {
    j := 0;
    if k != r.active {
      var i :| 0 <= i < |r.retired| && r.retired[i].key == k;
      j := i + 1;
    }
  }

  lemma NumbersDistinct(r: Ring, now: Time, i: nat, j: nat)
    requires Ordered(r, now) && i < j <= |r.retired|
    ensures KeyAt(r, i).number != KeyAt(r, j).number
  {
  }

  /** Published key ids are pairwise distinct. */
  lemma PublishedDistinct(r: Ring, now: Time, i: nat, j: nat)
    requires Ordered(r, now) && i < j < |Published(r)|
    ensures Published(r)[i].kid != Published(r)[j].kid
  {
    NumbersDistinct(r, now, i, j);
    var a, b := KeyAt(r, i), KeyAt(r, j);
    assert Published(r)[i].kid == a.Kid() && Published(r)[j].kid == b.Kid();
    if a.Kid() == b.Kid() {
      KidDeterminesNumber(a, b);
    }
  }

  // ---- how many retired keys pile up ----

  predicate Spaced(keys: seq<Retired>, gap: Time) {
    forall i, j :: 0 <= i < j < |keys| ==> keys[i].at + gap <= keys[j].at
  }

  function CeilDiv(a: int, b: int): int
    requires b > 0
  {
    -((-a) / b)
  }

  lemma {:induction false} SpacedSpan(keys: seq<Retired>, gap: Time)
    requires Spaced(keys, gap) && keys != []
    ensures keys[0].at + (|keys| - 1) * gap <= keys[|keys| - 1].at
  {
    if |keys| > 1 {
      SpacedSpan(keys[..|keys| - 1], gap);
      assert keys[|keys| - 2].at + gap <= keys[|keys| - 1].at;
    }
  }

  lemma CeilDivBound(m: int, a: int, b: int)
    requires b > 0 && m * b < a
    ensures m + 1 <= CeilDiv(a, b)
  {
    var q := (-a) / b;
    assert q * b <= -a;
    if -m <= q {
      assert -m * b <= q * b;
    }
  }

  lemma SuffixSpaced(keys: seq<Retired>, gap: Time, n: nat)
    requires Spaced(keys, gap) && n <= |keys|
    ensures Spaced(keys[n..], gap)
  {
  }

  /** ceil(grace / gap), and none for a grace period that is not positive. */
  function MaxRetired(grace: Time, gap: Time): int
    requires gap > 0
  {
    if grace <= 0 then 0 else CeilDiv(grace, gap)
  }

  /** Retired keys demoted within one grace period, at least `gap` apart. */
  lemma WindowBound(keys: seq<Retired>, gap: Time, now: Time, grace: Time)
    requires gap > 0 && Spaced(keys, gap)
    requires forall i :: 0 <= i < |keys| ==> now - grace < keys[i].at <= now
    ensures |keys| <= MaxRetired(grace, gap)
  {
    if keys != [] {
      SpacedSpan(keys, gap);
      CeilDivBound(|keys| - 1, grace, gap);
    }
  }

  lemma PruneWindow(keys: seq<Retired>, gap: Time, later: Time, grace: Time)
    requires TimesOrdered(keys) && gap > 0 && Spaced(keys, gap) && forall i :: 0 <= i < |keys| ==> keys[i].at <= later
    ensures var kept := Kept(keys, later - grace);
            && Spaced(kept, gap) && |kept| <= MaxRetired(grace, gap)
            && (kept != [] ==> keys != [] && kept[|kept| - 1] == keys[|keys| - 1])
  {
    var n := KeptIsSuffix(keys, later - grace);
    SuffixSpaced(keys, gap, n);
    WindowBound(keys[n..], gap, later, grace);
  }

  lemma RotateSpaced(r: Ring, next: Key, at: Time, gap: Time)
    requires gap > 0 && Spaced(r.retired, gap) && (r.retired != [] ==> r.retired[|r.retired| - 1].at + gap <= at)
    ensures Spaced(Rotated(r, next, at).retired, gap)
  {
  }

  lemma RotatedKeys(r: Ring, now: Time, next: Key, at: Time, later: Time) returns (keys: seq<Retired>)
    requires Ordered(r, now) && now <= at <= later && next.number > r.made
    ensures keys == Rotated(r, next, at).retired && keys != [] && keys[|keys| - 1].at == at
    ensures TimesOrdered(keys) && forall i :: 0 <= i < |keys| ==> keys[i].at <= later
  {
    keys := Rotated(r, next, at).retired;
  }

  /**
   Rotating at least `gap` after the last rotation and then pruning with grace G leaves at most
   ceil(G / gap) retired keys, still that far apart, so the bound holds after every round.
   */
  lemma RetiredBound(r: Ring, now: Time, next: Key, at: Time, gap: Time, later: Time, grace: Time)
    requires Ordered(r, now) && now <= at <= later && next.number > r.made
    requires gap > 0 && Spaced(r.retired, gap) && (r.retired != [] ==> r.retired[|r.retired| - 1].at + gap <= at)
    ensures var r' := Pruned(Rotated(r, next, at), later - grace);
            && Spaced(r'.retired, gap)
            && |r'.retired| <= MaxRetired(grace, gap)
            && (r'.retired != [] ==> r'.retired[|r'.retired| - 1].at == at)
  {
    var keys := RotatedKeys(r, now, next, at, later);
    RotateSpaced(r, next, at, gap);
    PruneWindow(keys, gap, later, grace);
  }

  // ---- every round of a schedule ----

  /** One turn of the rotation goroutine: the next key takes over at `at`, pruning reads the clock at `later`. */
  datatype Round = Round(next: Key, at: Time, later: Time)

  function Turn(r: Ring, turn: Round, grace: Time): Ring {
    Pruned(Rotated(r, turn.next, turn.at), turn.later - grace)
  }

  function AfterRounds(r: Ring, rounds: seq<Round>, grace: Time): Ring
    decreases |rounds|
  {
    if rounds == [] then r else AfterRounds(Turn(r, rounds[0], grace), rounds[1..], grace)
  }

  /** Numbers go up, the clock does not go back, and a rotation comes at least `gap` after the one before it. */
  predicate Timely(made: nat, now: Time, last: Time, rounds: seq<Round>, gap: Time)
    decreases |rounds|
  {
    rounds != [] ==>
      && made < rounds[0].next.number && now <= rounds[0].at <= rounds[0].later && last + gap <= rounds[0].at
      && Timely(rounds[0].next.number, rounds[0].later, rounds[0].at, rounds[1..], gap)
  }

  lemma TurnKeeps(r: Ring, now: Time, last: Time, turn: Round, gap: Time, grace: Time)
    requires Ordered(r, now) && gap > 0 && Spaced(r.retired, gap) && (forall i :: 0 <= i < |r.retired| ==> r.retired[i].at <= last)
    requires r.made < turn.next.number && now <= turn.at <= turn.later && last + gap <= turn.at
    ensures var r' := Turn(r, turn, grace);
            && Ordered(r', turn.later) && Spaced(r'.retired, gap) && r'.made == turn.next.number
            && (forall i :: 0 <= i < |r'.retired| ==> r'.retired[i].at <= turn.at)
            && |r'.retired| <= MaxRetired(grace, gap)
  {
    hide Kept, MaxRetired, Spaced;
    var rotated := Rotated(r, turn.next, turn.at);
    RetiredBound(r, now, turn.next, turn.at, gap, turn.later, grace);
    RotateKeepsOrder(r, now, turn.next, turn.at);
    assert Ordered(rotated, turn.later);
    PruneDropsPrefix(rotated, turn.later, turn.later - grace);
    TimesBound(rotated.retired, turn.later - grace, turn.at);
  }

  lemma TimesBound(keys: seq<Retired>, cutoff: Time, last: Time)
    requires forall i :: 0 <= i < |keys| ==> keys[i].at <= last
    ensures forall i :: 0 <= i < |Kept(keys, cutoff)| ==> Kept(keys, cutoff)[i].at <= last
  {
    forall i | 0 <= i < |Kept(keys, cutoff)| ensures Kept(keys, cutoff)[i].at <= last {
      KeptMembers(keys, cutoff, Kept(keys, cutoff)[i]);
    }
  }

  /**
   With rotations at least `gap` apart, at most ceil(grace / gap) retired keys are left after every
   rotate-and-prune of any schedule, from a new manager on.
   */
  lemma {:induction false} RoundsBound(r: Ring, now: Time, last: Time, rounds: seq<Round>, gap: Time, grace: Time)
    requires Ordered(r, now) && gap > 0 && Spaced(r.retired, gap) && (forall i :: 0 <= i < |r.retired| ==> r.retired[i].at <= last)
    requires Timely(r.made, now, last, rounds, gap) && rounds != []
    ensures |AfterRounds(r, rounds, grace).retired| <= MaxRetired(grace, gap)
    decreases |rounds|
  {
    TurnKeeps(r, now, last, rounds[0], gap, grace);
    if |rounds| > 1 {
      RoundsBound(Turn(r, rounds[0], grace), rounds[0].later, rounds[0].at, rounds[1..], gap, grace);
    }
  }
}
