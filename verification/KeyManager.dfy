/**
 `keys.Manager` in its own form: mutable entries, and the retired list as a Go slice, a backing
 array with a length, which pruning filters in place. Each method is proved against `KeyRing`.
 Clock readings and generated key material arrive as parameters.
 */
module KeyManager {
  import opened Wrappers
  import opened Clock
  import opened Primitives
  import opened Jwt
  import opened KeyRing

  datatype Algorithm = Supported(alg: Alg) | Unsupported(name: string)

  class Entry {
    const key: Key
    const kid: string := key.Kid()
    var retiredAt: Option<Time> // None while the key is active

    constructor (key: Key)
      ensures this.key == key && retiredAt == None
    {
      this.key := key;
      retiredAt := None;
    }
  }

  class Manager {
    const alg: Algorithm
    const gracePeriod: Time
    var active: Entry
    var backing: array<Entry>
    var length: nat
    var made: nat
    ghost var retired: seq<Retired> // what the live part of the backing array holds

    predicate Shows(e: Entry, r: Retired)
      reads e
    {
      e.key == r.key && e.retiredAt == Some(r.at)
    }

    ghost predicate Valid()
      reads this, active, backing
      reads if length <= backing.Length then backing[..length] else []
    {
      && length <= backing.Length && |retired| == length
      && forall i :: 0 <= i < length ==> backing[i] != active && Shows(backing[i], retired[i])
    }

    /** The abstract state. */
    ghost function Abstract(): Ring
      reads this, active
    {
      Ring(active.key, retired, made)
    }

    constructor (alg: Algorithm, gracePeriod: Time, first: Entry)
      requires first.retiredAt == None
      ensures Valid() && fresh(this) && fresh(backing)
      ensures this.alg == alg && this.gracePeriod == gracePeriod && active == first
      ensures Abstract() == Ring(first.key, [], first.key.number)
    {
      this.alg := alg;
      this.gracePeriod := gracePeriod;
      active := first;
      backing := new Entry[0](_ => first);
      length := 0;
      retired := [];
      made := first.key.number;
    }

    /** `NewManager`: refuses an unsupported algorithm or failed key generation. */
    static method NewManager(alg: Algorithm, gracePeriod: Time, kidClock: Time, createdAt: Time, material: Option<KeyPair>)
      returns (m: Option<Manager>)
      ensures m.Some? <==> alg.Supported? && material.Some?
      ensures m.Some? ==> fresh(m.value) && m.value.Valid() && m.value.gracePeriod == gracePeriod
                          && m.value.Abstract() == Ring(Key(alg.alg, 1, kidClock, createdAt, material.value), [], 1)
    {
      if alg.Unsupported? || material.None? {
        return None;
      }
      var first := new Entry(Key(alg.alg, 1, kidClock, createdAt, material.value));
      var made := new Manager(alg, gracePeriod, first);
      m := Some(made);
    }

    /** `generate`: the sequence number is spent even when no key comes out. */
    method Generate(kidClock: Time, createdAt: Time, material: Option<KeyPair>) returns (e: Option<Entry>)
      modifies this`made
      ensures made == old(made) + 1
      ensures e.Some? <==> alg.Supported? && material.Some?
      ensures e.Some? ==> fresh(e.value) && e.value.retiredAt == None
                          && e.value.key == Key(alg.alg, made, kidClock, createdAt, material.value)
    {
      made := made + 1;
      if alg.Unsupported? || material.None? {
        return None;
      }
      var fresh_ := new Entry(Key(alg.alg, made, kidClock, createdAt, material.value));
      e := Some(fresh_);
    }

    /** Go's `append` on the retired slice: in place while the backing array has room, else into a larger copy. */
    method AppendRetired(e: Entry)
      requires length <= backing.Length
      modifies this`backing, this`length, backing
      ensures length == old(length) + 1 && length <= backing.Length
      ensures backing == old(backing) || fresh(backing)
      ensures forall i :: 0 <= i < old(length) ==> backing[i] == old(backing[i])
      ensures backing[old(length)] == e
    {
      if length == backing.Length {
        var larger := new Entry[2 * backing.Length + 1](_ => e);
        for i := 0 to length
          modifies larger
          invariant forall k :: 0 <= k < i ==> larger[k] == backing[k]
        {
          larger[i] := backing[i];
        }
        backing := larger;
      }
      backing[length] := e;
      length := length + 1;
    }

    method Rotate(kidClock: Time, createdAt: Time, material: Option<KeyPair>, now: Time) returns (ok: bool)
      requires Valid()
      modifies this`active, this`backing, this`length, this`made, this`retired, backing, active
      ensures Valid()
      ensures ok <==> alg.Supported? && material.Some?
      ensures ok ==>
        Abstract() == Rotated(old(Abstract()), Key(alg.alg, old(made) + 1, kidClock, createdAt, material.value), now)
      ensures !ok ==> Abstract() == old(Abstract()).(made := old(made) + 1)
    {
      var next := Generate(kidClock, createdAt, material);
      if next.None? {
        return false;
      }
      var prev := active;
      prev.retiredAt := Some(now);
      AppendRetired(prev);
      active := next.value;
      retired := retired + [Retired(prev.key, now)];
      ok := true;
    }

    /**
     `prune`: one pass over the slice, writing what is kept over the front of the same array.
     */
    method Prune(now: Time)
      requires Valid()
      modifies this`length, this`retired, backing
      ensures Valid() && active == old(active)
      ensures Abstract() == Pruned(old(Abstract()), now - gracePeriod)
    {
      var cutoff := now - gracePeriod;
      ghost var front := [];
      var kept := 0;
      for i := 0 to length
        modifies backing
        invariant kept == |front| <= i <= length
        invariant forall k :: i <= k < length ==> backing[k] == old(backing[k])
        invariant forall k :: 0 <= k < kept ==> backing[k] != active && Shows(backing[k], front[k])
        invariant front == Kept(retired[..i], cutoff)
      {
        var e := backing[i];
        assert Shows(e, retired[i]);
        assert retired[..i + 1][..i] == retired[..i];
        if e.retiredAt.value > cutoff {
          backing[kept] := e;
          kept := kept + 1;
          front := front + [retired[i]];
        }
      }
      assert retired[..length] == retired;
      length := kept;
      retired := front;
    }

    method ActiveSigner() returns (k: Key)
      requires Valid()
      ensures k == Abstract().active
    {
      k := active.key;
    }

    method Verifier(kid: string) returns (k: Option<Key>)
      requires Valid()
      ensures k == Find(Abstract(), kid)
    {
      if active.kid == kid {
        return Some(active.key);
      }
      for i := 0 to length
        invariant FindRetired(retired, kid) == FindRetired(retired[i..], kid)
      {
        assert Shows(backing[i], retired[i]) && retired[i..][1..] == retired[i + 1..];
        if backing[i].kid == kid {
          return Some(backing[i].key);
        }
      }
      k := None;
    }

    /** `JWKS`: the published document, the active key first. */
    method JWKS() returns (keys: seq<Jwk>)
      requires Valid()
      ensures keys == Published(Abstract())
    {
      keys := [ToJwk(active.key)];
      ghost var all := Published(Abstract());
      for i := 0 to length
        invariant keys == all[..i + 1]
      {
        assert Shows(backing[i], retired[i]) && all[i + 1] == ToJwk(retired[i].key);
        keys := keys + [ToJwk(backing[i].key)];
      }
    }
  }
}
